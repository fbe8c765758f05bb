# refyne-demos core, modelled in Dafny

refyne-demos holds two small web apps built on the Refyne extraction service:

- **DIY viewer**: stores how-to tutorials with a glossary, materials, tools and steps. Each step has images, skill references and safety warnings. The app also keeps a materials-and-tools checklist.
- **Recipe app**: stores recipes with ingredients and instructions, plus a shopping list.

Each app has the same three pieces, and this project models all three.

1. **Extraction normalisers.** Each app turns the extraction service's HTTP answer into a `{success, data?, error?}` response. Inside that, a loosely typed JSON payload becomes a strict tutorial or recipe, with JavaScript `||` defaults. This is pure code, modelled as functions over a JSON value type (`JsValue`):
   - `Truthy` mirrors JavaScript falsiness;
   - a property read of `null`/`undefined` and `.map` on a non-array are `Fault`s, standing for the exceptions the code catches.
   - Modules: `ExtractResponse`, `TutorialExtract`, `RecipeExtract`.
2. **Database and checklist layers.** The D1 (SQLite) tables are sequences of row records in table order. The tutorial store and the recipe store are each a class whose methods update the tables step by step, as the TypeScript does. `generateId` is a counter whose decimal text is the new id (`Table.IdText`): fresh, and distinct from every id issued before.
   - Each method is proved equal to a plan or read function (`TutorialPlan`, `TutorialRows`, `RecipeRows`).
   - Each class has a validity invariant, `Valid()`. Every exported operation that writes requires it and keeps it; `GenerateId` and the `Insert*` loop helpers are steps inside an operation and carry no `Valid()` clause.
   - The properties are proved about those functions:
     - what a tutorial or recipe reads back as after it is added or deleted;
     - that other items are left alone;
     - the checklist and shopping-list rules;
     - the validity invariant every write keeps.
   - The JSON text columns are modelled with the exact `JSON.stringify` output grammar for the stored shapes, and `JSON.parse` of that grammar. The round trip is proved (`StoredJson`).
3. **SQL seed emitters.** The scripts take the already-fetched rows and write an SQL file of `INSERT OR REPLACE` statements.
   - `escapeSQL` is proved to round-trip.
   - A lexer for the emitted value lists is proved to read every row back from its line, with its terminator.
   - Modules: `SqlLiteral`, `TutorialSeed`, `RecipeSeed`.

Shared building blocks:

- `Wrappers`: Option and Result.
- `Decimal`: number-to-text conversion with its inverse.
- `Table`: `WHERE` as a filter, `ORDER BY` as a stable insertion sort, and the 0/1 flag encoding.

## Model

| member | source | states |
|---|---|---|
| ExtractResponse.Respond | diyviewer/src/lib/refyne.ts:171-225 | A non-OK response fails with the body's truthy `error`, or else with `API error: <status>`. An OK body with a truthy `error` fails with that error. Success holds exactly when the payload (`data.data`, or the whole body when that is falsy) normalises without a fault, and the data is then the normalised payload. |
| ExtractResponse.ApiErrorNamesStatus | diyviewer/src/lib/refyne.ts:175 | The fallback message is `API error: ` followed by decimal digits whose value is the HTTP status. |
| TutorialExtract.ExtractTutorial | diyviewer/src/lib/refyne.ts:171-225 | `extractTutorial` succeeds iff the response is OK, the body has no truthy `error`, and the payload is well shaped. Its data is then the normalised tutorial. |
| TutorialExtract.NormalizeTutorial | diyviewer/src/lib/refyne.ts:189-218 | Title defaults to `Untitled Tutorial` and overview to `''`. `image_url`, `difficulty`, `estimated_time` and `tags` are copied verbatim. Materials and steps keep length and order, element i being the element normaliser at index i, and an absent list gives `[]`. The result is a fault exactly when a list element is nullish. |
| TutorialExtract.NormalizeMaterial | diyviewer/src/lib/refyne.ts:199-204 | `item` defaults to `Item <idx+1>` and is always truthy. Quantity, notes and purchase_url pass through. A nullish element is a fault. |
| TutorialExtract.NormalizeStep | diyviewer/src/lib/refyne.ts:205-216 | `step_number` is the input's if truthy, else idx+1. Title defaults to `Step <idx+1>`, instructions to `''` and `image_urls` to `[]`. Tips pass through. Helpful links keep length and order and are `[]` when absent. |
| TutorialExtract.NormalizeLink | diyviewer/src/lib/refyne.ts:211-215 | Title defaults to `Helpful Resource`, url to `''` and type to `reference`. A nullish link is a fault. |
| TutorialExtract.UnnumberedStepsCountFromOne | diyviewer/src/lib/refyne.ts:205-206 | N steps none of which carries a truthy `step_number` come out numbered 1..N, in input order. |
| TutorialExtract.NormalizedTutorialComplete | diyviewer/src/lib/refyne.ts:191-218 | Every normalised tutorial has a truthy title, a truthy item in every material, and a truthy step number, title and image list in every step. Each link has a truthy title and type. |
| TutorialExtract.InstructionOnlyStep | diyviewer/src/lib/refyne.ts:205-216 | A step holding only instructions becomes step 1, titled `Step 1`, with no tips, no images and no links. |
| TutorialExtract.TutorialWithoutMaterials | diyviewer/src/lib/refyne.ts:194-217 | A payload without materials normalises to the defaulted scalars, `[]` materials and its normalised steps. |
| TutorialExtract.SingleInstructionStep | diyviewer/src/lib/refyne.ts:189-218 | The smallest payload, a single instruction, normalises to a fully defaulted tutorial. |
| RecipeExtract.ExtractRecipe | recipeapp/src/lib/refyne.ts:143-192 | `extractRecipe` succeeds iff the response is OK, the body has no truthy `error`, and the payload is well shaped. Its data is then the normalised recipe. |
| RecipeExtract.NormalizeRecipe | recipeapp/src/lib/refyne.ts:161-186 | Title defaults to `Untitled Recipe`. Description, image_url, the three times, servings, nutrition and tags are copied verbatim. Ingredients and instructions keep length and order and are `[]` when absent. |
| RecipeExtract.NormalizeIngredient | recipeapp/src/lib/refyne.ts:173-178 | Name defaults to `Ingredient <idx+1>`. Quantity, unit and notes pass through. A nullish element is a fault. |
| RecipeExtract.NormalizeInstruction | recipeapp/src/lib/refyne.ts:179-182 | `step` is the input's if truthy, else idx+1. `text` is `inst.text` if truthy, else the element itself. |
| RecipeExtract.BareStringInstructions | recipeapp/src/lib/refyne.ts:179-182 | A list of bare strings becomes instructions numbered 1..N, each string its own text. |
| JsValue.MapIndexed | diyviewer/src/lib/refyne.ts:199 | `.map` with an index succeeds iff every element maps without a fault, and then the output keeps length and order. Otherwise the fault is the first failing element's. |
| Decimal.NatToString | diyviewer/src/lib/refyne.ts:175 | The text of a number is non-empty decimal digits with no leading zero. |
| Decimal.NatToStringRoundTrip | diyviewer/src/lib/refyne.ts:200 | Reading the digits of `${n}` back gives n. |
| Decimal.NatToStringInjective | diyviewer/src/lib/db.ts:116-118 | Different numbers have different texts, so counter ids never collide. |
| Decimal.IntToString | recipeapp/scripts/export-seed.ts:91 | The text of an integer starts with `-` exactly when the integer is negative, and is digits otherwise. |
| SqlLiteral.EscapeSql | diyviewer/scripts/export-seed.ts:17-20 | null/undefined becomes the bare text `NULL`. A string becomes `'`…`'` of length: the length of s, plus 2, plus the number of `'` in s. |
| SqlLiteral.DoubleQuotes | diyviewer/scripts/export-seed.ts:19 | Doubling the quotes lengthens a string by exactly its number of `'`. |
| SqlLiteral.CollapseDoubled | diyviewer/scripts/export-seed.ts:19 | Collapsing each `''` to `'` undoes the doubling. |
| SqlLiteral.StripAndCollapse | recipeapp/scripts/export-seed.ts:17-20 | Stripping the outer quotes of `escapeSQL(s)` and collapsing `''` gives back s, for every string. |
| SqlLiteral.LexDoubled | diyviewer/scripts/export-seed.ts:19 | An SQL string lexer reads exactly s from an escaped literal and stops at its closing quote. |
| SqlLiteral.LexRender | diyviewer/scripts/export-seed.ts:107 | Every emitted value (`NULL`, a quoted string, or an integer) is read back as itself, leaving the following text. |
| SqlLiteral.LexValueList | diyviewer/scripts/export-seed.ts:107 | A comma-separated value list closed by `)` reads back as its values, in order. |
| SqlLiteral.ParseRowText | diyviewer/scripts/export-seed.ts:105-108 | A row line `  (v1, …, vk)` reads back as the row's values, with the rest of the line left over. |
| SqlLiteral.BlockLines | diyviewer/scripts/export-seed.ts:105-108 | A block has one value line per row. |
| SqlLiteral.BlockLinesCarryRows | diyviewer/scripts/export-seed.ts:105-108 | Line i of a block reads back as row i, ending in `,` except the last, which ends in `;`. |
| SqlLiteral.Section | diyviewer/scripts/export-seed.ts:101-111 | A section is empty iff it has no rows. Otherwise it is the comment, the INSERT header, the block lines and a blank line. |
| SqlLiteral.PushSection | diyviewer/scripts/export-seed.ts:101-111 | Pushing a section appends exactly that section to the lines built so far. |
| TutorialSeed.StepIdListEmpty | diyviewer/scripts/export-seed.ts:73-74 | The joined step-id list is empty iff there are no steps. |
| TutorialSeed.StepImagesQueryNamesSteps | diyviewer/scripts/export-seed.ts:73-75 | With steps, the image query's `IN (…)` list lexes back as exactly the escaped step ids, in order. |
| TutorialSeed.FetchStepImages | diyviewer/scripts/export-seed.ts:73-76 | Step images are fetched (by that query) only when some step exists, and are `[]` otherwise. |
| TutorialSeed.BuildSeedLines | diyviewer/scripts/export-seed.ts:79-163 | The successive pushes produce the header, then the glossary, material, tool, step and image sections, in that order. |
| TutorialSeed.GenerateTutorialSeed | diyviewer/scripts/export-seed.ts:36-166 | With no tutorial the result is the `Tutorial not found: <id>` error. Otherwise it is the seed lines joined with `\n`. |
| TutorialSeed.GlossaryBlockCarriesRows | diyviewer/scripts/export-seed.ts:105-108 | Each glossary line reads back as that term's id, tutorial id, term, definition, context and sort order, with the `,`/`;` rule. |
| TutorialSeed.ChildBlocksCarryRows | diyviewer/scripts/export-seed.ts:118-160 | The material, tool, step and image lines read back as their rows one-to-one, in order, with the `,`/`;` rule. |
| RecipeSeed.ServingsText | recipeapp/scripts/export-seed.ts:78 | Servings are `NULL` iff absent or 0. Any other count reads back as that number. |
| RecipeSeed.BuildSeedLines | recipeapp/scripts/export-seed.ts:61-108 | The header, then the ingredient section, then the instruction section, each section omitted when empty. |
| RecipeSeed.GenerateRecipeSeed | recipeapp/scripts/export-seed.ts:36-111 | With no recipe the result is the `Recipe not found: <id>` error. Otherwise it is the seed lines joined with `\n`. |
| RecipeSeed.BlocksCarryRows | recipeapp/scripts/export-seed.ts:89-105 | Ingredient and instruction lines read back as their rows one-to-one, in order, with `,` and a final `;`. |
| StoredJson.Quote | diyviewer/src/lib/db.ts:399-401 | A JSON string literal starts with `"`. |
| StoredJson.QuoteRoundTrip | diyviewer/src/lib/db.ts:204 | `JSON.parse` of the literal `JSON.stringify` writes for a string gives the string back, leaving what follows. |
| StoredJson.MeasurementRoundTrip | diyviewer/src/lib/db.ts:331 | A stringified measurement object parses back to the same measurement. |
| StoredJson.ListRoundTrip | diyviewer/src/lib/db.ts:356-358 | A stringified array parses back to the same list, given an element codec that round-trips. |
| StoredJson.MeasurementColumn | diyviewer/src/lib/db.ts:331 | A material's measurement column is NULL iff there is no measurement. |
| StoredJson.ListColumn | diyviewer/src/lib/db.ts:356-358 | A list column is NULL iff the list is empty. |
| StoredJson.MeasurementColumnRoundTrip | diyviewer/src/lib/db.ts:156 | The stored measurement column reads back as the measurement, or as null when there was none. |
| StoredJson.ListColumnRoundTrip | diyviewer/src/lib/db.ts:215 | A stored list column (NULL when empty) reads back as the same list, `[]` for NULL. |
| StoredJson.MeasurementListCodec | diyviewer/src/lib/db.ts:356-358 | The measurement codec reads back what it writes, and never writes text that could end an array. |
| StoredJson.StringListCodec | diyviewer/src/lib/db.ts:399-401 | The string codec reads back what it writes, and never writes text that could end an array. |
| TutorialRows.MeasurementsColumnRoundTrip | diyviewer/src/lib/db.ts:215 | A step's measurements read back as stored, `[]` when none. |
| TutorialRows.PpeColumnRoundTrip | diyviewer/src/lib/db.ts:204 | A warning's PPE list reads back as stored, `[]` when none. |
| TutorialRows.DecodeTools | diyviewer/src/lib/db.ts:165-168 | Tools decode one-to-one, in order, `required` as `required === 1`. |
| TutorialRows.StepDetails | diyviewer/src/lib/db.ts:208-219 | A decoded step keeps its row's step number. |
| TutorialRows.ChecklistView | diyviewer/src/lib/db.ts:440-450 | The checklist view has one item per stored row. |
| Table.Where | diyviewer/src/lib/db.ts:138-141 | `WHERE` keeps exactly the rows satisfying the condition. |
| Table.WhereAppend | diyviewer/src/lib/db.ts:138-141 | `WHERE` over rows appended later is the old answer followed by the new rows' answer. |
| Table.WhereWhere | diyviewer/src/lib/db.ts:432-433 | Two successive filters are one filter by their conjunction. |
| Table.FirstWhere | diyviewer/src/lib/db.ts:130-135 | `.first()` is null iff no row matches, and otherwise is a matching row. |
| Table.SortByOrders | diyviewer/src/lib/db.ts:139 | `ORDER BY key` returns a permutation of its rows, sorted by the key. |
| Table.SortBySorted | diyviewer/src/lib/db.ts:172 | `ORDER BY` leaves rows already in key order unchanged. |
| Table.SortByIndexed | diyviewer/src/lib/db.ts:317-326 | Rows whose sort key is their position come back exactly as inserted. |
| Table.NewestFirst | diyviewer/src/lib/db.ts:121-126 | `ORDER BY created_at DESC` lists the rows from the most recent insertion back. |
| Table.DecodeEach | diyviewer/src/lib/db.ts:177-220 | A per-row decode loop succeeds iff every row decodes, and then keeps length and order. |
| Table.DecodeEachFirstError | diyviewer/src/lib/db.ts:177-220 | A failing decode loop fails with the first failing row's error. |
| Table.DecodeEachSortBy | diyviewer/src/lib/db.ts:171-220 | Decoding steps sorted by step number is sorting the decoded steps by step number. |
| Table.NullIfEmpty | diyviewer/src/lib/db.ts:324 | The `or null` default is NULL exactly for an absent or empty string, and is the string otherwise. |
| Table.FlagColumn | diyviewer/src/lib/db.ts:349 | `b ? 1 : 0` is 0 or 1. |
| Table.FlagRoundTrip | diyviewer/src/lib/db.ts:165-168 | A boolean written as 1/0 reads back unchanged through `=== 1`. |
| Table.SqlNot | diyviewer/src/lib/db.ts:469 | SQL `NOT` yields 0 or 1, and yields 1 exactly for 0. |
| Table.SqlNotFlips | src/lib/db.ts:172-177 | On a 0/1 flag, `NOT` flips what `=== 1` shows. |
| Table.IdTextIssued | diyviewer/src/lib/db.ts:116-118 | The n-th id counts as issued exactly once more than n ids have been handed out. |
| Table.IdTextInjective | src/lib/db.ts:49-51 | Distinct counter values give distinct ids. |
| TutorialPlan.GlossaryRows | diyviewer/src/lib/db.ts:317-326 | One glossary row per term. |
| TutorialPlan.MaterialRows | diyviewer/src/lib/db.ts:329-339 | One material row per material. |
| TutorialPlan.ToolRows | diyviewer/src/lib/db.ts:342-351 | One tool row per tool. |
| TutorialPlan.ImageRows | diyviewer/src/lib/db.ts:369-379 | One image row per URL. |
| TutorialPlan.SkillRows | diyviewer/src/lib/db.ts:382-393 | One skill-reference row per skill. |
| TutorialPlan.WarningRows | diyviewer/src/lib/db.ts:396-410 | One safety-warning row per warning. |
| TutorialPlan.StepRowsFrom | diyviewer/src/lib/db.ts:354-366 | One step row per step. |
| TutorialPlan.DeleteStepChildrenNone | diyviewer/src/lib/db.ts:425-429 | The per-step delete loop over no steps changes nothing. |
| TutorialPlan.DeleteStepChildrenNext | diyviewer/src/lib/db.ts:425-429 | Each loop pass deletes exactly that step's images, skill references and warnings. |
| TutorialPlan.ItemRows | diyviewer/src/lib/db.ts:489-512 | One checklist row per entry. |
| TutorialPlan.ItemRowsAppend | diyviewer/src/lib/db.ts:489-512 | Adding the materials and then the tools is adding both entry lists in one run, ids continuing. |
| TutorialPlan.ToggleRows | diyviewer/src/lib/db.ts:467-472 | The toggle keeps the number of checklist rows. |
| TutorialPlan.TutorialEntries | diyviewer/src/lib/db.ts:482-513 | The entries copied are the tutorial's materials followed by its required tools. |
| TutorialPlan.StepViewsFrom | diyviewer/src/lib/db.ts:177-220 | One step view per step added. |
| TutorialDb.TutorialDatabase.constructor | diyviewer/src/lib/db.ts:116-118 | A new store has empty tables, no id issued, and is valid. |
| TutorialDb.TutorialDatabase.GenerateId | diyviewer/src/lib/db.ts:116-118 | Returns the next counter id and touches no table. |
| TutorialDb.TutorialDatabase.GetTutorials | diyviewer/src/lib/db.ts:121-126 | Every tutorial, the most recently added first. |
| TutorialDb.TutorialDatabase.GetTutorialById | diyviewer/src/lib/db.ts:129-229 | Returns the read function: null for an unknown id, an error when a stored JSON column does not parse, else the tutorial with ordered children. |
| TutorialDb.TutorialDatabase.StepsWithDetails | diyviewer/src/lib/db.ts:177-220 | The step loop equals decoding every step row with its images, skills and warnings, stopping at the first parse error. |
| TutorialDb.TutorialDatabase.AddTutorial | diyviewer/src/lib/db.ts:287-414 | Returns the fresh tutorial id. The tables become the add plan: every insert of the source, ids in its order. The counter advances by the number of rows inserted. A valid store stays valid. |
| TutorialDb.TutorialDatabase.InsertLists | diyviewer/src/lib/db.ts:316-351 | The glossary, material and tool loops append exactly their planned rows. |
| TutorialDb.TutorialDatabase.InsertGlossary | diyviewer/src/lib/db.ts:317-326 | Appends one row per term, with an empty context stored as NULL and `sort_order` its index. Nothing else changes. |
| TutorialDb.TutorialDatabase.InsertMaterials | diyviewer/src/lib/db.ts:329-339 | Appends one row per material, with the measurement JSON, empty quantity and notes stored as NULL, and `sort_order` its index. |
| TutorialDb.TutorialDatabase.InsertTools | diyviewer/src/lib/db.ts:342-351 | Appends one row per tool, with `required` as 1/0 and `sort_order` its index. |
| TutorialDb.TutorialDatabase.InsertSteps | diyviewer/src/lib/db.ts:354-411 | The step loop appends exactly the planned step rows and their children. |
| TutorialDb.TutorialDatabase.InsertStep | diyviewer/src/lib/db.ts:355-410 | One step row, with empty tips stored as NULL and the measurements JSON, then its images, skills and warnings. |
| TutorialDb.TutorialDatabase.InsertImages | diyviewer/src/lib/db.ts:369-379 | Appends one image row per URL, with `sort_order = i`. Only the image table changes. |
| TutorialDb.TutorialDatabase.InsertSkills | diyviewer/src/lib/db.ts:382-393 | Appends one skill-reference row per skill, with `sort_order = i`. Only that table changes. |
| TutorialDb.TutorialDatabase.InsertWarnings | diyviewer/src/lib/db.ts:396-410 | Appends one warning row per warning, with its PPE JSON (NULL when empty) and `sort_order = i`. |
| TutorialDb.TutorialDatabase.DeleteTutorial | diyviewer/src/lib/db.ts:417-437 | The tables become the delete plan: each step's children, then glossary and tools, then the tutorial with its cascaded materials and steps. The checklist is kept. A valid store stays valid. |
| TutorialDb.TutorialDatabase.GetChecklist | diyviewer/src/lib/db.ts:440-450 | Returns the checklist view. |
| TutorialDb.TutorialDatabase.AddToChecklist | diyviewer/src/lib/db.ts:452-465 | Appends exactly one row with a fresh id and returns that id. A valid store stays valid. |
| TutorialDb.TutorialDatabase.ToggleChecklistItem | diyviewer/src/lib/db.ts:467-472 | Only the checklist changes, by the toggle. A valid store stays valid. |
| TutorialDb.TutorialDatabase.RemoveChecklistItem | diyviewer/src/lib/db.ts:474-476 | Only the checklist changes, keeping the rows with another id. A valid store stays valid. |
| TutorialDb.TutorialDatabase.ClearChecklist | diyviewer/src/lib/db.ts:478-480 | The checklist becomes empty and nothing else changes. A valid store stays valid. |
| TutorialDb.TutorialDatabase.AddTutorialToChecklist | diyviewer/src/lib/db.ts:482-513 | Appends one row per copied entry (materials, then required tools), ids continuing from the counter. A valid store stays valid. |
| TutorialDb.TutorialDatabase.AddEntries | diyviewer/src/lib/db.ts:489-512 | The `addToChecklist` loop appends one row per entry, in order. A valid store stays valid. |
| TutorialDb.AddTutorialSteps | diyviewer/src/lib/db.ts:354-411 | The step loop, started after the three list loops, completes the add plan. |
| TutorialDb.CopyToChecklistPlan | diyviewer/src/lib/db.ts:482-513 | The material copy loop followed by the required-tool copy loop, whose tool query runs after the first loop, adds exactly the tutorial's entries, materials first, with ids continuing from the counter. |
| TutorialReadBack.AddedTables | diyviewer/src/lib/db.ts:287-414 | `addTutorial` only appends to each table, and leaves the checklist alone. |
| TutorialReadBack.TablesFresh | diyviewer/src/lib/db.ts:295 | On valid tables no stored row belongs to the next id. |
| TutorialReadBack.StepsBack | diyviewer/src/lib/db.ts:171-220 | Right after `addTutorial`, the new tutorial's steps decode to the added steps sorted by step number, each with its own images, skills and warnings in input order. |
| TutorialReadBack.AddThenReadFresh | diyviewer/src/lib/db.ts:129-229 | When nothing is yet stored under the new id, reading it back gives the added view. |
| TutorialReadBack.AddThenRead | diyviewer/src/lib/db.ts:287-414 | On valid tables, `getTutorialById(addTutorial(…))` returns the tutorial as given. Glossary, materials and tools come back in input order with `sort_order` their index, and empty optional strings as NULL. Tool `required` and the JSON columns round-trip. Steps come back ordered by step number. |
| TutorialValidity.AddKeepsValid | diyviewer/src/lib/db.ts:287-414 | `addTutorial` keeps the store valid: ids issued, JSON columns parseable, flags 0/1. |
| TutorialValidity.DeleteKeepsValid | diyviewer/src/lib/db.ts:417-437 | `deleteTutorial` keeps the store valid. |
| TutorialValidity.AddToChecklistKeepsValid | diyviewer/src/lib/db.ts:452-465 | `addToChecklist` keeps the store valid. |
| TutorialValidity.ToggleKeepsValid | diyviewer/src/lib/db.ts:467-472 | `toggleChecklistItem` keeps the store valid (flags stay 0/1). |
| TutorialValidity.RemoveKeepsValid | diyviewer/src/lib/db.ts:474-476 | `removeChecklistItem` keeps the store valid. |
| TutorialValidity.AddTutorialToChecklistKeepsValid | diyviewer/src/lib/db.ts:482-513 | `addTutorialToChecklist` keeps the store valid. |
| TutorialValidity.ItemRowsIssued | diyviewer/src/lib/db.ts:489-512 | Every copied checklist row has an issued id and is unchecked. |
| TutorialValidity.ValidLater | diyviewer/src/lib/db.ts:116-118 | Issuing more ids keeps a valid store valid. |
| TutorialValidity.StepDetailsSucceed | diyviewer/src/lib/db.ts:177-220 | On a valid store every stored step decodes. |
| TutorialValidity.ValidReadsSucceed | diyviewer/src/lib/db.ts:129-229 | On a valid store `getTutorialById` never hits a JSON parse error, for any id. |
| TutorialDeletion.DeleteThenRead | diyviewer/src/lib/db.ts:417-437 | After `deleteTutorial(id)`, `getTutorialById(id)` returns null. |
| TutorialDeletion.DeleteRemovesOwnRows | diyviewer/src/lib/db.ts:417-437 | No tutorial, glossary, material, tool or step row of the id remains. The checklist is untouched. |
| TutorialDeletion.DeleteRemovesStepChildren | diyviewer/src/lib/db.ts:425-429 | No image, skill-reference or warning row of any of its steps remains. |
| TutorialIsolation.DeleteKeepsOthers | diyviewer/src/lib/db.ts:417-437 | Deleting one tutorial does not change what another reads back as. |
| TutorialIsolation.AddKeepsOthers | diyviewer/src/lib/db.ts:287-414 | Adding a tutorial to a valid store does not change what any other tutorial reads back as. |
| TutorialIsolation.AddKeepsOtherSteps | diyviewer/src/lib/db.ts:354-411 | Another tutorial's steps read back the same after an add. |
| TutorialChecklist.AddedItemFirst | diyviewer/src/lib/db.ts:452-465 | The added item is listed first and unchecked, with empty optional fields as NULL and its item type. The rest of the list is unchanged. |
| TutorialChecklist.ToggleFlips | diyviewer/src/lib/db.ts:467-472 | A toggle flips `checked` of exactly the items with the id. Every other item and field is unchanged. |
| TutorialChecklist.ToggleTwice | diyviewer/src/lib/db.ts:467-472 | Toggling the same id twice restores the checklist. |
| TutorialChecklist.ViewMembers | diyviewer/src/lib/db.ts:445-449 | The view lists exactly the decoded stored rows. |
| TutorialChecklist.RemoveDropsId | diyviewer/src/lib/db.ts:474-476 | After a remove, the view holds exactly the earlier items with another id. |
| TutorialChecklist.NullIfEmptyTwice | diyviewer/src/lib/db.ts:492-493 | The `or undefined` default followed by `addToChecklist`'s `or null` default is a single `or null`. |
| TutorialChecklist.MaterialItemRow | diyviewer/src/lib/db.ts:489-497 | A material becomes an unchecked `material` row carrying its name, quantity, notes and the tutorial id, which `|| null` stores as NULL when it is empty. |
| TutorialChecklist.ToolItemRow | diyviewer/src/lib/db.ts:505-512 | A tool becomes an unchecked `tool` row carrying its name, notes and the tutorial id (NULL when empty), with no quantity. |
| TutorialChecklist.ChecklistSelection | diyviewer/src/lib/db.ts:484-503 | The copied materials are exactly the tutorial's. The copied tools are exactly its tools with `required = 1`. |
| TutorialChecklist.TutorialMaterialItems | diyviewer/src/lib/db.ts:482-497 | The first rows added are one `material` item per material, in order, with consecutive fresh ids. |
| TutorialChecklist.TutorialToolItems | diyviewer/src/lib/db.ts:499-512 | They are followed by one `tool` item per required tool, in order. |
| RecipeRows.IngredientRows | src/lib/db.ts:116-124 | One ingredient row per input. |
| RecipeRows.InstructionRows | src/lib/db.ts:127-135 | One instruction row per input. |
| RecipeRows.ShoppingView | src/lib/db.ts:146-155 | One item per stored shopping row. |
| RecipeRows.ShoppingRows | src/lib/db.ts:193-200 | One shopping row per entry. |
| RecipeRows.ToggleShopping | src/lib/db.ts:172-177 | The toggle keeps the number of rows. |
| RecipeRows.RecipeEntries | src/lib/db.ts:187-200 | One entry per ingredient of the recipe. |
| RecipeDb.RecipeDatabase.constructor | src/lib/db.ts:49-51 | A new store has empty tables, no id issued, and is valid. |
| RecipeDb.RecipeDatabase.GenerateId | src/lib/db.ts:49-51 | Returns the next counter id and touches no table. |
| RecipeDb.RecipeDatabase.GetRecipes | src/lib/db.ts:54-59 | Every recipe, the most recently added first. |
| RecipeDb.RecipeDatabase.GetRecipeById | src/lib/db.ts:62-85 | Null for an unknown id. Otherwise the recipe with its ingredients by `sort_order` and its instructions by `step_number`. |
| RecipeDb.RecipeDatabase.AddRecipe | src/lib/db.ts:88-138 | Returns the fresh recipe id. The tables become the add plan: the recipe row, then its ingredients and instructions. A valid store stays valid. |
| RecipeDb.RecipeDatabase.InsertIngredients | src/lib/db.ts:116-124 | Appends one row per ingredient with the caller's `sort_order`. Only that table changes. |
| RecipeDb.RecipeDatabase.InsertInstructions | src/lib/db.ts:127-135 | Appends one row per instruction with the caller's `step_number`. Only that table changes. |
| RecipeDb.RecipeDatabase.DeleteRecipe | src/lib/db.ts:141-143 | Removes the recipe row, and with the cascade its ingredients and instructions. The shopping list is kept. A valid store stays valid. |
| RecipeDb.RecipeDatabase.GetShoppingList | src/lib/db.ts:146-155 | Returns the shopping view. |
| RecipeDb.RecipeDatabase.AddToShoppingList | src/lib/db.ts:157-170 | Appends exactly one unchecked row with a fresh id and returns that id. A valid store stays valid. |
| RecipeDb.RecipeDatabase.ToggleShoppingItem | src/lib/db.ts:172-177 | Only the shopping list changes, by the toggle. A valid store stays valid. |
| RecipeDb.RecipeDatabase.RemoveShoppingItem | src/lib/db.ts:179-181 | Only the shopping list changes, keeping the rows with another id. A valid store stays valid. |
| RecipeDb.RecipeDatabase.ClearShoppingList | src/lib/db.ts:183-185 | The shopping list becomes empty and nothing else changes. A valid store stays valid. |
| RecipeDb.RecipeDatabase.AddRecipeToShoppingList | src/lib/db.ts:187-201 | Appends one row per ingredient of the recipe, ids continuing from the counter. A valid store stays valid. |
| RecipeDb.RecipeDatabase.AddShoppingEntries | src/lib/db.ts:193-200 | The `addToShoppingList` loop appends one row per entry, in order. A valid store stays valid. |
| RecipeReadBack.AddedDetails | src/lib/db.ts:62-85 | Right after `addRecipe`, the recipe reads back with exactly its inserted rows, sorted. |
| RecipeReadBack.AddRecipeThenRead | src/lib/db.ts:88-138 | `getRecipeById(addRecipe(…))` returns the recipe as given. Its ingredients are sorted by `sort_order` and are a permutation of the inserted rows; the same holds for the instructions by `step_number`. |
| RecipeReadBack.AddRecipeKeepsGivenOrder | src/lib/db.ts:88-138 | Ingredients and instructions given already in key order read back exactly as given. |
| RecipeReadBack.DeleteRecipeThenRead | src/lib/db.ts:141-143 | After `deleteRecipe(id)`, `getRecipeById(id)` is null. |
| RecipeReadBack.DeleteRecipeRemovesRows | src/lib/db.ts:141-143 | No recipe, ingredient or instruction row of the id remains. The shopping list is untouched. |
| RecipeReadBack.DeleteRecipeKeepsOthers | src/lib/db.ts:141-143 | Deleting one recipe does not change what another reads back as. |
| RecipeReadBack.AddRecipeKeepsOthers | src/lib/db.ts:88-138 | Adding a recipe does not change what any other recipe reads back as. |
| RecipeShopping.AddedShoppingFirst | src/lib/db.ts:157-170 | The added item is listed first and unchecked, with its fields as given. The rest of the list is unchanged. |
| RecipeShopping.ShoppingToggleFlips | src/lib/db.ts:172-177 | A toggle flips `checked` of exactly the items with the id. Every other item is unchanged. |
| RecipeShopping.ShoppingToggleTwice | src/lib/db.ts:172-177 | Toggling the same id twice restores the shopping list. |
| RecipeShopping.ShoppingViewMembers | src/lib/db.ts:151-154 | The view lists exactly the stored rows, with `checked === 1` and the other fields unchanged. |
| RecipeShopping.ShoppingRemoveDropsId | src/lib/db.ts:179-181 | After a remove, the view holds exactly the earlier items with another id. |
| RecipeShopping.RecipeItems | src/lib/db.ts:187-201 | One unchecked item per ingredient of the recipe, in table order. Each copies the name, quantity and unit and carries the recipe id. Notes are not copied. |
| RecipeShopping.AddedRecipeShopping | src/lib/db.ts:187-201 | Putting a just-added recipe on the list gives one item per ingredient as it was given, in the given order. |
| RecipeValidity.AddRecipeKeepsValid | src/lib/db.ts:88-138 | `addRecipe` keeps the store valid: ids issued, flags 0/1. |
| RecipeValidity.DeleteRecipeKeepsValid | src/lib/db.ts:141-143 | `deleteRecipe` keeps the store valid. |
| RecipeValidity.AddToShoppingKeepsValid | src/lib/db.ts:157-170 | `addToShoppingList` keeps the store valid. |
| RecipeValidity.ToggleShoppingKeepsValid | src/lib/db.ts:172-177 | `toggleShoppingItem` keeps the store valid (flags stay 0/1). |
| RecipeValidity.RemoveShoppingKeepsValid | src/lib/db.ts:179-181 | `removeShoppingItem` keeps the store valid. |
| RecipeValidity.AddRecipeToShoppingKeepsValid | src/lib/db.ts:187-201 | `addRecipeToShoppingList` keeps the store valid. |
| RecipeValidity.RecipeValidLater | src/lib/db.ts:49-51 | Issuing more ids keeps a valid store valid. |

## Left out

- The HTTP request itself (`fetch`, headers, request body) and the YAML schema prompts are not modelled. The response is an input value of (ok, status, body). For an OK response, a body that is not JSON is a fault (diyviewer/src/lib/refyne.ts:179); for a non-OK response it reads as `{}` (diyviewer/src/lib/refyne.ts:172).
- The text of an exception's `message` is a caller-supplied `describe` function, because the JavaScript engine writes it. So is the fallback `Failed to extract …`, which only a non-`Error` throw reaches.
- The SQL engine is not modelled.
  - Queries are filters and stable sorts over in-memory rows.
  - Ties under `ORDER BY` keep insertion order, where SQLite leaves them unspecified.
  - `created_at` is represented by insertion order, so `ORDER BY created_at DESC` lists the newest row first.
- The cascades are an assumption, because the database schema is not part of this model:
  - deleting a tutorial is assumed to cascade to its materials and steps;
  - deleting a recipe is assumed to cascade to its ingredients and instructions.
- The `checked` column default of 0 is written into the inserted row.
- `crypto.randomUUID` is modelled as a counter whose decimal text is the id. Freshness and distinctness are what the model relies on.
- `JSON.stringify`/`JSON.parse` are modelled only for the stored shapes: a measurement object, a list of those, and a list of strings. Lone surrogate halves in `\u` escapes are not modelled.
- The tutorial reads call `JSON.parse` without a guard (diyviewer/src/lib/db.ts:156, 204, 215). So a column the model's reader rejects is an error result from `getTutorialById`, not an empty value. Stores built by the app's own writes never hit it (`TutorialValidity.ValidReadsSucceed`).
- The JSON column readers (`StoredJson.ReadMeasurementColumn`, `StoredJson.ReadListColumn`) accept only the canonical text that `JSON.stringify` writes for the stored shapes:
  - no whitespace between tokens;
  - measurement keys only in the order `original`, `metric`, `imperial`;
  - no `null` members.
  Other text that `JSON.parse` reads, such as `[ "gloves" ]` or a measurement with its keys reordered, is an error result here, where the source returns the data. Such text can only come from a writer outside the app.
- In the seed scripts, the following are not modelled: `runD1Query`, `execSync`, `process.exit`, `console`, the command line, and the export timestamp. The fetched rows and the timestamp are parameters, and the not-found exit is an error result. The step-image query's answer is a function of the query text.
- The API route and any job polling are not part of this model.
- Optional input lists that may be absent (step images, skills, warnings, measurements, PPE) are sequences, with an absent list as the empty sequence. Absent optional strings are `None`.
- JSON numbers are `real`.
- The number columns of the database rows and the seed rows are `int`: `servings`, `sort_order`, `step_number`, and the seed's `required`. A non-integral value passed to `addRecipe` or `addTutorial` (a `servings` of 2.5, a fractional `sort_order` or `step_number`) is not modelled. The extractor's `real` step numbers are not fed into the database layer; its inputs are integers.
- The TypeScript casts of `difficulty`, `severity` and `item_type` to string unions are unchecked in the source, and are kept as plain strings.
- TutorialIsolation.DeleteKeepsOthers: requires that the two tutorials share no step id. The app's own writes guarantee this through fresh ids, but the lemma does not derive it from validity.
- TutorialIsolation.AddKeepsOthers: requires a valid store, so that no existing step already uses an id the add hands out.
- TutorialChecklist.ToggleFlips: requires every stored flag to be 0 or 1. With another value, `NOT` would not flip what `=== 1` shows. The app's writes keep this (`TutorialValidity.ToggleKeepsValid`).
- RecipeShopping.ShoppingToggleFlips: requires 0/1 flags, for the same reason.
- Three behaviours of the code are modelled as written:
  - `getTutorialById` parses its JSON columns with an unguarded `JSON.parse` (diyviewer/src/lib/db.ts:156, 204, 215), so a column that does not parse throws; it does not degrade to an empty value.
  - `addTutorial` writes `tool.required ? 1 : 0` (diyviewer/src/lib/db.ts:349), so an absent `required` flag is stored as 0.
  - `deleteRecipe` (src/lib/db.ts:141-143) issues only the delete of the recipe row. The removal of its ingredients and instructions rests on the cascade assumed above.
