# Project material rollup, in Dafny

This project models the material rollup engine of a maintenance-planning app. A project applies
maintenance templates (MRCs) a number of times each. Every template lists the materials (SPMIGs)
one occurrence uses. A project may override a template line's per-occurrence quantity, either
with an actual quantity or with a factor. The engine, `computeProjectRollup`, turns this into
one row per material. Each row holds:

- the total quantity needed;
- the quantity to order, rounded up to whole packs;
- the extended cost;
- the list of contributions that make up the total.

The rows come back sorted by description.

Files:

- `wrappers.dfy`: `Option` and a map lookup that returns an `Option`.
- `types.dfy`: the records of `src/types.ts`. Optional (`?`) fields become `Option`, and quantities, factors, costs and pack sizes become exact `real`s.
- `description_order.dfy`: the order the rows are sorted in, and an in-place insertion sort over an `array<RollupRow>`, proved to sort and to permute.
- `project_rollup.dfy`: the engine.
  - The specification is built from pure functions:
    - the three id indexes (`IndexBy`, `OverrideIndex`; in a JS `Map` built from pairs, the last pair for a key wins);
    - the override precedence (`ResolveEffectiveQty`);
    - the flat list of (application, line) pairs the nested loops visit (`Entries`);
    - the group-by fold over that list into a map plus its key insertion order (`Group`, `AddEntry`);
    - the second pass (`Finish`, `OrderQty`, `Ceil`).
  - The imperative method `ComputeProjectRollup` carries out the same steps: nested `while` loops that update the `rollup` map, a second loop over the keys in insertion order, and a sort of an array in place. It is proved to return a sorted permutation of the specified rows.
- `rollup_properties.dfy`: what the engine promises, proved about the specification:
  - which rows exist;
  - which contributions each row holds and that its total is their sum;
  - which fields it copies from its material;
  - the pack-rounding bounds;
  - extended cost present exactly when a unit cost is present;
  - overrides of other projects ignored;
  - the override key.
- `rollup_scenarios.dfy`: the scenarios of `src/utils/computeProjectRollup.test.ts`, worked through on the specification.

The model follows the code in these places:

- Applications with zero or negative occurrences are not skipped. They still create a row and a contribution worth `occurrences * qty`.
- A row's `uom` is the creating line's `uom` when that is non-empty (`item.uom || spmig.uom`), and the material's otherwise.
- In the second pass the pack size is re-read from the material (`spmig?.packSize ?? row.packSize`).
- In the second pass, `extCost` is only assigned when there is a unit cost. It is otherwise left as created, which is absent.

The override key is the string `mrcId + "::" + spmigId`, exactly as in the source. Two different (template, material) pairs can share a key only when both a template id and a material id contain `:`. `OverrideKeyInjective` proves that template ids without `:` are enough to keep pairs apart, and `OverrideKeyInjectiveByMaterial` proves the same for material ids without `:`. `OverrideKeyCollision` shows two pairs that share a key when both kinds of id contain `:`. Ids in the app are generated store ids, so the model keeps the source's key unchanged.

## Model

| member | source | states |
|---|---|---|
| ProjectRollup.ResolveEffectiveQty | src/utils/computeProjectRollup.ts:10-18 | No override gives the base quantity. An actual quantity wins whatever the factor. Otherwise a factor gives base × factor. An override with neither gives the base. |
| ProjectRollup.LastIndexOf | src/utils/computeProjectRollup.ts:26-27 | The position of the last element with a given id, or -1, and no later element has that id. |
| ProjectRollup.IndexBy | src/utils/computeProjectRollup.ts:26-27 | The material and template indexes hold exactly the ids that occur, each mapped to the last record with that id. |
| ProjectRollup.LatestOverrideIndex | src/utils/computeProjectRollup.ts:28-32 | The position of the latest override of this project with a given key, or -1, and no later override of this project has that key. |
| ProjectRollup.OverrideIndex | src/utils/computeProjectRollup.ts:28-32 | A key is present exactly when some override of this project has it. It then maps to the latest such override in input order. |
| ProjectRollup.GroupWellFormed | src/utils/computeProjectRollup.ts:49-73 | After the fold, the key order lists each row exactly once. Each row sits under its own material id. Each row's total equals the sum of its contributions' totals. |
| ProjectRollup.AddEntryWellFormed | src/utils/computeProjectRollup.ts:49-73 | One find-or-create, add and append step keeps that invariant. |
| ProjectRollup.GroupSnoc | src/utils/computeProjectRollup.ts:36-75 | Folding one more visited line is one more find-or-create, add and append step on the fold so far. |
| ProjectRollup.Ceil | src/utils/computeProjectRollup.ts:81 | `Math.ceil`: the least integer at or above its argument. |
| ProjectRollup.OrderQty | src/utils/computeProjectRollup.ts:80-84 | With a positive pack size, the order quantity is a whole number of packs, at least the total and less than the total plus one pack. Otherwise it is the total. |
| ProjectRollup.PackBounds | src/utils/computeProjectRollup.ts:81 | `ceil(t/p)·p` is a whole multiple of `p` in `[t, t + p)`. |
| ProjectRollup.Finish | src/utils/computeProjectRollup.ts:77-88 | The second pass changes only `orderQty` and `extCost`. It rounds with the material's pack size, falling back on the row's. With a unit cost, the extended cost is order quantity × unit cost. Without one, the extended cost is left as it was. |
| ProjectRollup.FinishedRows | src/utils/computeProjectRollup.ts:77-90 | Its contract states only that there is one row per key of the map. It is defined as the finished row of each key in insertion order (`Array.from(rollup.values())`); `RollupProperties.UnsortedRollupAt` states that row by row. |
| ProjectRollup.ComputeProjectRollup | src/utils/computeProjectRollup.ts:20-93 | The result is ascending by description. It is a permutation of the specified rollup: the fold of every visited line, finished by the second pass. |
| ProjectRollup.AccumulateItems | src/utils/computeProjectRollup.ts:39-74 | The inner loop over a template's lines leaves the map equal to the fold extended by that application's entries. Lines with unknown materials are skipped. |
| ProjectRollup.ItemEntriesSnoc | src/utils/computeProjectRollup.ts:39-41 | One more template line adds its entry when its material is known, and nothing otherwise. |
| ProjectRollup.AddItem | src/utils/computeProjectRollup.ts:43-73 | The loop body resolves the override, computes `occurrences × effective`, finds or creates the row, adds to its total and appends the contribution. The result is exactly one fold step. |
| ProjectRollup.FinishRows | src/utils/computeProjectRollup.ts:77-88 | The second loop keeps the same keys and replaces every row by its finished row. |
| ProjectRollup.FinishRow | src/utils/computeProjectRollup.ts:78-87 | The second loop's body for one row computes the finished row. |
| ProjectRollup.RoundToPacks | src/utils/computeProjectRollup.ts:80-84 | The rounding branch computes the specified order quantity. |
| DescriptionOrder.LessEqTotal | src/utils/computeProjectRollup.ts:90-92 | Any two descriptions are comparable. |
| DescriptionOrder.LessEqTransitive | src/utils/computeProjectRollup.ts:90-92 | The description order is transitive. |
| DescriptionOrder.LessEqAntisymmetric | src/utils/computeProjectRollup.ts:90-92 | Descriptions ordered both ways are equal. |
| DescriptionOrder.SortByDescription | src/utils/computeProjectRollup.ts:90-92 | The array ends up ascending by description and holds the same rows. |
| DescriptionOrder.InsertDown | src/utils/computeProjectRollup.ts:90-92 | Inserting one more row extends a sorted prefix by one, keeps the same rows, and leaves the rows after it untouched. |
| DescriptionOrder.SwapDown | src/utils/computeProjectRollup.ts:90-92 | Exchanging neighbours keeps the other rows and the multiset. |
| RollupProperties.EntriesFromKnownLines | src/utils/computeProjectRollup.ts:36-41 | Every contribution comes from an applied template that is known and a line whose material is known. Unknown references add nothing. |
| RollupProperties.ItemEntriesFromLines | src/utils/computeProjectRollup.ts:39-41 | Every entry of one application is the entry of one of its template's lines with a known material. |
| RollupProperties.EveryKnownLineContributes | src/utils/computeProjectRollup.ts:36-48 | Every line of every applied known template with a known material yields a contribution. This includes zero or negative occurrence counts. |
| RollupProperties.LineContributes | src/utils/computeProjectRollup.ts:39-48 | Every line of a template with a known material yields an entry for that application. |
| RollupProperties.ContributionOfLine | src/utils/computeProjectRollup.ts:43-48 | A contribution records the template, occurrences, base quantity and override-resolved quantity, with `totalFromMrc = occurrences × effective`. |
| RollupProperties.FirstEntryFor | src/utils/computeProjectRollup.ts:49-61 | The first visited line for a material, which is the one that creates its row. |
| RollupProperties.GroupRow | src/utils/computeProjectRollup.ts:49-73 | A row exists exactly when some visited line is for that material. It was created by the first such line, which fixes description, uom (line's, else material's), unit cost and pack size. It holds exactly that material's contributions in visiting order, and its total is their sum. |
| RollupProperties.OrderListsEachRowOnce | src/utils/computeProjectRollup.ts:73 | The map's insertion order lists every row exactly once. |
| RollupProperties.EntryMaterials | src/utils/computeProjectRollup.ts:40-41 | Every contribution carries the indexed record of its material. |
| RollupProperties.GroupedRowFacts | src/utils/computeProjectRollup.ts:49-73 | Before the second pass a row copies its material's description, unit cost and pack size, totals exactly its contributions, and has no extended cost. |
| RollupProperties.RollupRowFacts | src/utils/computeProjectRollup.ts:49-90 | Every returned row is for a material that received a contribution and copies that material's description, unit cost and pack size. Its total is the sum of exactly its contributions. |
| RollupProperties.RollupRowPricing | src/utils/computeProjectRollup.ts:77-90 | Every returned row's order quantity is its total rounded up to whole packs of a positive pack size (or is the total). It has an extended cost exactly when it has a unit cost, equal to order quantity × unit cost. |
| RollupProperties.GroupedRowPricingInputs | src/utils/computeProjectRollup.ts:56-79 | A row of the fold rounds with its own pack size, the material's, and has no extended cost before the second pass. |
| RollupProperties.UnsortedRollupAt | src/utils/computeProjectRollup.ts:77-90 | The `t`-th row before sorting is the finished row of the `t`-th key in insertion order. |
| RollupProperties.FinishedRowFacts | src/utils/computeProjectRollup.ts:77-88 | Finishing keeps every other field, `uom` included. It rounds to packs and prices exactly the rows with a unit cost. |
| RollupProperties.RollupKeys | src/utils/computeProjectRollup.ts:34-73 | One row per material that received a contribution, and no two rows for the same material. |
| RollupProperties.ForeignOverridesIgnored | src/utils/computeProjectRollup.ts:28-32 | Overrides of other projects leave the rollup as it is without overrides. |
| RollupProperties.NoOverridesOfProject | src/utils/computeProjectRollup.ts:28-32 | The override index of a project none of whose overrides is given is empty. |
| RollupProperties.OverrideKeyInjective | src/utils/computeProjectRollup.ts:31-43 | When template ids hold no `:`, two keys are equal exactly when their (template, material) pairs are. |
| RollupProperties.OverrideKeyInjectiveByMaterial | src/utils/computeProjectRollup.ts:31-43 | When material ids hold no `:`, two keys are equal exactly when their (template, material) pairs are. |
| RollupProperties.OverrideKeyCollision | src/utils/computeProjectRollup.ts:31-43 | With `:` in both a template id and a material id, ("x", ":y") and ("x:", "y") share the key `x:::y`. |
| RollupScenarios.ActualOverrideScenario | src/utils/computeProjectRollup.test.ts:36-65 | With an actual quantity of 2 on (mrc2, A): A needs 12 from two contributions, orders 20 and costs 40. B needs and orders 10 and has no cost. |
| RollupScenarios.FactorOverrideScenario | src/utils/computeProjectRollup.test.ts:67-87 | With a factor of 0.5 on (mrc1, B): B needs 5, and A still needs 9. |
| RollupScenarios.NoOverrideScenario | src/utils/computeProjectRollup.test.ts:5-33 | Without overrides: A needs 9, orders 10 and costs 20. B needs and orders 10 with no cost. |
| RollupScenarios.ScenarioSortedResult | src/utils/computeProjectRollup.ts:90-92 | On the test inputs, any sorted permutation of the rows (the method's result) lists "Item A" before "Item B". |
| RollupScenarios.SortedPair | src/utils/computeProjectRollup.ts:90-92 | Two rows whose descriptions are strictly out of order have exactly one ascending arrangement. |

## Left out

- The React pages, routing, Firestore services and anonymous authentication are outside the engine. They are network I/O, UI state and asynchronous callbacks. Their form checks are not assumed of the engine's inputs.
- IEEE-754 arithmetic: quantities, factors, costs and pack sizes are exact reals. Float rounding of sums and of `Math.ceil` over them is not reproduced.
- `DescriptionOrder.LessEq` is plain lexicographic order on character codes. `localeCompare` is locale-dependent, so only the sort's ascending order and its being a permutation are stated, not which permutation among equal descriptions.
- `DescriptionOrder.SortByDescription` is an insertion sort. Stability and the engine's exact sort algorithm are not stated.
- `ProjectRollup.ComputeProjectRollup` updates rows as values in a map rather than as shared mutable objects. No row object is reachable from outside the map during the computation, so aliasing changes nothing observable.
- `typeof x === 'number'` is modelled as `Option` presence. A present field holding `NaN` is not distinguished. Neither are the JS falsy cases of `packSize` other than 0 and absence.
- Idempotence of the rollup is not stated. The engine builds fresh rows from its inputs on every call, so a repeat call trivially gives the same rows.
