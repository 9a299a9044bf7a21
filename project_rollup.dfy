/**
 * The material rollup engine of src/utils/computeProjectRollup.ts.
 *
 * The engine is specified here by pure functions: the id indexes it builds, the flat list of
 * contributions its nested loops visit (`Entries`), the group-by fold over that list (`Group`),
 * and the per-row pack rounding and cost (`Finish`). The method `ComputeProjectRollup` performs
 * the same steps imperatively and is proved to return those rows, sorted by description.
 */
module ProjectRollup {
  import opened Wrappers
  import opened Types
  import opened DescriptionOrder

  // ---------------------------------------------------------------------------------------------
  // Indexes

  /** The position of the last element of `xs` whose key is `k`, or -1 when there is none. */
  function LastIndexOf<T>(xs: seq<T>, key: T -> string, k: string): (i: int)
    ensures -1 <= i < |xs|
    ensures 0 <= i ==> key(xs[i]) == k
    ensures forall j :: i < j < |xs| ==> key(xs[j]) != k
  {
    if xs == [] then -1
    else if key(xs[|xs| - 1]) == k then |xs| - 1
    else LastIndexOf(xs[..|xs| - 1], key, k)
  }

  /**
   * `new Map(xs.map(x => [key(x), x]))`: exactly the keys that occur are present, and each maps
   * to the element with that key that comes last in `xs`.
   */
  function IndexBy<T>(xs: seq<T>, key: T -> string): (m: map<string, T>)
    ensures forall k :: k in m <==> 0 <= LastIndexOf(xs, key, k)
    ensures forall k :: k in m ==> m[k] == xs[LastIndexOf(xs, key, k)]
  {
    if xs == [] then map[]
    else
      var m0 := IndexBy(xs[..|xs| - 1], key);
      var x := xs[|xs| - 1];
      m0[key(x) := x]
  }

  function SpmigIndex(spmigs: seq<Spmig>): map<string, Spmig>
  {
    IndexBy(spmigs, (s: Spmig) => s.id)
  }

  function MrcIndex(mrcs: seq<Mrc>): map<string, Mrc>
  {
    IndexBy(mrcs, (m: Mrc) => m.id)
  }

  /** The composite override key, the template literal `${mrcId}::${spmigId}`. */
  function OverrideKey(mrcId: string, spmigId: string): string
  {
    mrcId + "::" + spmigId
  }

  function KeyOf(o: ProjectOverride): string
  {
    OverrideKey(o.mrcId, o.spmigId)
  }

  /** The position of the last override of project `projectId` with key `k`, or -1 when there is none. */
  function LatestOverrideIndex(projectId: string, overrides: seq<ProjectOverride>, k: string): (i: int)
    ensures -1 <= i < |overrides|
    ensures 0 <= i ==> overrides[i].projectId == projectId && KeyOf(overrides[i]) == k
    ensures forall j :: i < j < |overrides| ==> overrides[j].projectId != projectId || KeyOf(overrides[j]) != k
  {
    if overrides == [] then -1
    else
      var o := overrides[|overrides| - 1];
      if o.projectId == projectId && KeyOf(o) == k then |overrides| - 1
      else LatestOverrideIndex(projectId, overrides[..|overrides| - 1], k)
  }

  /**
   * The override index: `overrides.filter(o => o.projectId === projectId)` keyed by `KeyOf`.
   * A key is present exactly when some override of this project has it, and then it maps to the
   * latest such override; overrides of other projects are never consulted.
   */
  function OverrideIndex(projectId: string, overrides: seq<ProjectOverride>): (m: map<string, ProjectOverride>)
    ensures forall k :: k in m <==> 0 <= LatestOverrideIndex(projectId, overrides, k)
    ensures forall k :: k in m ==> m[k] == overrides[LatestOverrideIndex(projectId, overrides, k)]
  {
    if overrides == [] then map[]
    else
      var m0 := OverrideIndex(projectId, overrides[..|overrides| - 1]);
      var o := overrides[|overrides| - 1];
      if o.projectId == projectId then m0[KeyOf(o) := o] else m0
  }

  // ---------------------------------------------------------------------------------------------
  // Override precedence

  /**
   * The per-occurrence quantity of one template line: an actual quantity beats a factor, a
   * factor beats the base quantity, and no override (or one holding neither) keeps the base.
   */
  function ResolveEffectiveQty(baseQty: real, ovr: Option<ProjectOverride>): (r: real)
    ensures ovr.None? ==> r == baseQty
    ensures ovr.Some? && ovr.value.actualQtyPerOccur.Some? ==> r == ovr.value.actualQtyPerOccur.value
    ensures ovr.Some? && ovr.value.actualQtyPerOccur.None? && ovr.value.factor.Some? ==>
      r == baseQty * ovr.value.factor.value
    ensures ovr.Some? && ovr.value.actualQtyPerOccur.None? && ovr.value.factor.None? ==> r == baseQty
  {
    match ovr
    case None => baseQty
    case Some(o) =>
      if o.actualQtyPerOccur.Some? then o.actualQtyPerOccur.value
      else if o.factor.Some? then baseQty * o.factor.value
      else baseQty
  }

  // ---------------------------------------------------------------------------------------------
  // The contributions visited by the nested loops

  /** One visited (application, item) pair whose material is known: its material and contribution. */
  datatype Entry = Entry(spmigId: string, spmig: Spmig, itemUom: string, contribution: RollupContribution)

  function MakeEntry(
    app: MrcApplication, mrc: Mrc, item: MrcItem, spmig: Spmig,
    overrideIndex: map<string, ProjectOverride>): Entry
  {
    var effective := ResolveEffectiveQty(item.qtyPerOccur, Get(overrideIndex, OverrideKey(mrc.id, item.spmigId)));
    Entry(item.spmigId, spmig, item.uom,
      RollupContribution(mrc.id, mrc.name, app.occurrences, item.qtyPerOccur, effective,
        app.occurrences * effective))
  }

  /** The entries of the lines `items` of template `mrc` applied by `app`, in order; unknown materials are skipped. */
  function ItemEntries(
    app: MrcApplication, mrc: Mrc, items: seq<MrcItem>,
    spmigIndex: map<string, Spmig>, overrideIndex: map<string, ProjectOverride>): seq<Entry>
  {
    if items == [] then []
    else
      var item := items[|items| - 1];
      var prefix := ItemEntries(app, mrc, items[..|items| - 1], spmigIndex, overrideIndex);
      if item.spmigId in spmigIndex
      then prefix + [MakeEntry(app, mrc, item, spmigIndex[item.spmigId], overrideIndex)]
      else prefix
  }

  /** The entries of all applications `apps`, in application-then-item order; unknown templates are skipped. */
  function Entries(
    apps: seq<MrcApplication>, mrcIndex: map<string, Mrc>,
    spmigIndex: map<string, Spmig>, overrideIndex: map<string, ProjectOverride>): seq<Entry>
  {
    if apps == [] then []
    else
      var app := apps[|apps| - 1];
      var prefix := Entries(apps[..|apps| - 1], mrcIndex, spmigIndex, overrideIndex);
      if app.mrcId in mrcIndex
      then prefix + ItemEntries(app, mrcIndex[app.mrcId], mrcIndex[app.mrcId].items, spmigIndex, overrideIndex)
      else prefix
  }

  // ---------------------------------------------------------------------------------------------
  // The accumulation fold

  /** The `rollup` Map: its rows, and its keys in insertion order (the order a JS Map iterates in). */
  datatype Accumulation = Accumulation(rows: map<string, RollupRow>, order: seq<string>)

  /** Sum of the contributions' `totalFromMrc`. */
  function SumTotals(cs: seq<RollupContribution>): real
  {
    if cs == [] then 0.0 else SumTotals(cs[..|cs| - 1]) + cs[|cs| - 1].totalFromMrc
  }

  /**
   * What the fold keeps true: the key order lists each row exactly once, every row sits under its
   * own material id, and every row's total is the sum of its contributions.
   */
  ghost predicate WellFormed(acc: Accumulation)
  {
    && (forall i :: 0 <= i < |acc.order| ==> acc.order[i] in acc.rows)
    && (forall k :: k in acc.rows ==> k in acc.order)
    && (forall i, j :: 0 <= i < j < |acc.order| ==> acc.order[i] != acc.order[j])
    && (forall k :: k in acc.rows ==>
          acc.rows[k].spmigId == k && acc.rows[k].totalNeeded == SumTotals(acc.rows[k].contributions))
  }

  /** The row created for a material on its first contribution. */
  function NewRow(e: Entry): RollupRow
  {
    RollupRow(
      spmigId := e.spmigId,
      description := e.spmig.description,
      uom := if e.itemUom != "" then e.itemUom else e.spmig.uom,
      unitCost := e.spmig.unitCost,
      packSize := e.spmig.packSize,
      totalNeeded := 0.0,
      orderQty := 0.0,
      extCost := None,
      contributions := [])
  }

  /** One step of the fold: find or create the row, add the total, append the contribution. */
  function AddEntry(acc: Accumulation, e: Entry): Accumulation
  {
    var base := if e.spmigId in acc.rows then acc.rows[e.spmigId] else NewRow(e);
    var row := base.(totalNeeded := base.totalNeeded + e.contribution.totalFromMrc,
                     contributions := base.contributions + [e.contribution]);
    Accumulation(acc.rows[e.spmigId := row],
                 if e.spmigId in acc.rows then acc.order else acc.order + [e.spmigId])
  }

  /** The fold over all entries, starting from the empty Map. */
  function Group(es: seq<Entry>): Accumulation
  {
    if es == [] then Accumulation(map[], [])
    else AddEntry(Group(es[..|es| - 1]), es[|es| - 1])
  }

  /** The fold keeps the Map well formed: one row per key, each total the sum of its contributions. */
  lemma {:induction false} GroupWellFormed(es: seq<Entry>)
    ensures WellFormed(Group(es))
  {
    if es != [] {
      GroupWellFormed(es[..|es| - 1]);
      AddEntryWellFormed(Group(es[..|es| - 1]), es[|es| - 1]);
    }
  }

  /** One fold step keeps the Map well formed. */
  lemma AddEntryWellFormed(acc: Accumulation, e: Entry)
    requires WellFormed(acc)
    ensures WellFormed(AddEntry(acc, e))
  {
    var acc' := AddEntry(acc, e);
    var k := e.spmigId;
    var prior := if k in acc.rows then acc.rows[k].contributions else [];
    assert acc'.rows[k].contributions == prior + [e.contribution];
    assert (prior + [e.contribution])[..|prior|] == prior;
    if k !in acc.rows {
      assert k !in acc.order;
      assert acc'.order == acc.order + [k];
    }
  }

  // ---------------------------------------------------------------------------------------------
  // Pack rounding and cost

  /** `Math.ceil`: the least integer at or above `x`. */
  function Ceil(x: real): (c: int)
    ensures (c as real) - 1.0 < x <= c as real
  {
    -((-x).Floor)
  }

  /** The pack size the second pass uses: the current material's, else the row's own. */
  function PackSizeFor(row: RollupRow, spmigIndex: map<string, Spmig>): Option<real>
  {
    if row.spmigId in spmigIndex && spmigIndex[row.spmigId].packSize.Some?
    then spmigIndex[row.spmigId].packSize
    else row.packSize
  }

  /**
   * The order quantity for a total and a pack size. With a positive pack size `p` it is a whole
   * number of packs, at least the total and less than one pack above it; otherwise the total.
   */
  function OrderQty(totalNeeded: real, packSize: Option<real>): (q: real)
    ensures packSize.Some? && packSize.value > 0.0 ==>
      && q / packSize.value == (q / packSize.value).Floor as real
      && totalNeeded <= q < totalNeeded + packSize.value
    ensures !(packSize.Some? && packSize.value > 0.0) ==> q == totalNeeded
  {
    if packSize.Some? && packSize.value > 0.0 then
      var n := Ceil(totalNeeded / packSize.value);
      PackBounds(totalNeeded, packSize.value, n);
      (n as real) * packSize.value
    else totalNeeded
  }

  /** Rounding `t / p` up to `n` packs gives a multiple of `p`, at least `t` and less than `t + p`. */
  lemma PackBounds(t: real, p: real, n: int)
    requires p > 0.0
    requires (n as real) - 1.0 < t / p <= n as real
    ensures ((n as real) * p) / p == ((n as real) * p / p).Floor as real
    ensures t <= (n as real) * p < t + p
  {
    WholePacks(n, p);
    var q := t / p;
    assert q * p == t;
    NotBelowTotal(t, q, n as real, p);
    LessThanOnePackAbove(t, q, n as real, p);
  }

  lemma NotBelowTotal(t: real, q: real, m: real, p: real)
    requires p > 0.0 && q <= m && t == q * p
    ensures t <= m * p
  {
    MulMonotonic(q, m, p);
  }

  lemma LessThanOnePackAbove(t: real, q: real, m: real, p: real)
    requires p > 0.0 && m - 1.0 < q && t == q * p
    ensures m * p < t + p
  {
    MulMonotonic(m - 1.0, q, p);
    assert (m - 1.0) * p == m * p - p;
  }

  lemma WholePacks(n: int, p: real)
    requires p > 0.0
    ensures ((n as real) * p) / p == n as real
    ensures ((n as real) * p / p).Floor == n
  {
  }

  lemma MulMonotonic(a: real, b: real, p: real)
    requires a <= b && p > 0.0
    ensures a * p <= b * p
    ensures a < b ==> a * p < b * p
  {
    assert b * p - a * p == (b - a) * p;
  }

  /**
   * The second pass on one row: the order quantity is rounded with the current pack size, and
   * the extended cost is the order quantity times the unit cost exactly when a unit cost is known;
   * nothing else changes.
   */
  function Finish(row: RollupRow, spmigIndex: map<string, Spmig>): (r: RollupRow)
    ensures r == row.(orderQty := r.orderQty, extCost := r.extCost)
    ensures r.orderQty == OrderQty(row.totalNeeded, PackSizeFor(row, spmigIndex))
    ensures row.unitCost.Some? ==> r.extCost.Some? && r.extCost.value == r.orderQty * row.unitCost.value
    ensures row.unitCost.None? ==> r.extCost == row.extCost
  {
    var orderQty := OrderQty(row.totalNeeded, PackSizeFor(row, spmigIndex));
    row.(orderQty := orderQty,
         extCost := if row.unitCost.Some? then Some(orderQty * row.unitCost.value) else row.extCost)
  }

  // ---------------------------------------------------------------------------------------------
  // The whole computation

  /** The finished rows in the Map's insertion order. */
  function FinishedRows(acc: Accumulation, spmigIndex: map<string, Spmig>): (rows: seq<RollupRow>)
    requires WellFormed(acc)
    ensures |rows| == |acc.order|
  {
    seq(|acc.order|, i requires 0 <= i < |acc.order| => Finish(acc.rows[acc.order[i]], spmigIndex))
  }

  /** The grouped (not yet finished) accumulation of a project. */
  function Grouped(project: Project, mrcs: seq<Mrc>, spmigs: seq<Spmig>, overrides: seq<ProjectOverride>): Accumulation
  {
    Group(Entries(project.mrcApplications, MrcIndex(mrcs), SpmigIndex(spmigs),
                  OverrideIndex(project.id, overrides)))
  }

  /** `Array.from(rollup.values())` before the sort. */
  function UnsortedRollup(project: Project, mrcs: seq<Mrc>, spmigs: seq<Spmig>, overrides: seq<ProjectOverride>): seq<RollupRow>
  {
    GroupWellFormed(Entries(project.mrcApplications, MrcIndex(mrcs), SpmigIndex(spmigs),
                            OverrideIndex(project.id, overrides)));
    FinishedRows(Grouped(project, mrcs, spmigs, overrides), SpmigIndex(spmigs))
  }

  /** One more entry is one more step of the fold. */
  lemma GroupSnoc(es: seq<Entry>, e: Entry)
    ensures Group(es + [e]) == AddEntry(Group(es), e)
  {
    assert (es + [e])[..|es|] == es;
  }

  /**
   * `computeProjectRollup`: index the inputs, fold every (application, item) pair into the
   * `rollup` Map, round every row to whole packs and price it, then sort by description. The
   * result holds exactly the rows of `UnsortedRollup`, ascending by description.
   */
  method ComputeProjectRollup(project: Project, mrcs: seq<Mrc>, spmigs: seq<Spmig>, overrides: seq<ProjectOverride>)
    returns (result: seq<RollupRow>)
    ensures SortedByDescription(result)
    ensures multiset(result) == multiset(UnsortedRollup(project, mrcs, spmigs, overrides))
  {
    var spmigIndex := SpmigIndex(spmigs);
    var mrcIndex := MrcIndex(mrcs);
    var overrideIndex := OverrideIndex(project.id, overrides);

    var rollup: map<string, RollupRow> := map[];
    var keys: seq<string> := [];
    var apps := project.mrcApplications;
    var i := 0;
    while i < |apps|
      invariant 0 <= i <= |apps|
      invariant Accumulation(rollup, keys) == Group(Entries(apps[..i], mrcIndex, spmigIndex, overrideIndex))
    {
      var application := apps[i];
      assert apps[..i + 1][..i] == apps[..i];
      if application.mrcId in mrcIndex {
        var mrc := mrcIndex[application.mrcId];
        rollup, keys := AccumulateItems(rollup, keys, application, mrc, spmigIndex, overrideIndex,
                                        Entries(apps[..i], mrcIndex, spmigIndex, overrideIndex));
      }
      i := i + 1;
    }
    assert apps[..i] == apps;

    ghost var grouped := Accumulation(rollup, keys);
    GroupWellFormed(Entries(apps, mrcIndex, spmigIndex, overrideIndex));
    rollup := FinishRows(rollup, keys, spmigIndex);

    var sorted := new RollupRow[|keys|](t requires 0 <= t < |keys| && keys[t] in rollup => rollup[keys[t]]);
    assert sorted[..] == FinishedRows(grouped, spmigIndex);
    SortByDescription(sorted);
    result := sorted[..];
  }

  /**
   * The inner loop: folds the lines of template `mrc`, applied by `application`, into the Map
   * that so far holds the fold of `done`.
   */
  method AccumulateItems(
    rollup0: map<string, RollupRow>, keys0: seq<string>,
    application: MrcApplication, mrc: Mrc,
    spmigIndex: map<string, Spmig>, overrideIndex: map<string, ProjectOverride>,
    ghost done: seq<Entry>)
    returns (rollup: map<string, RollupRow>, keys: seq<string>)
    requires Accumulation(rollup0, keys0) == Group(done)
    ensures Accumulation(rollup, keys) == Group(done + ItemEntries(application, mrc, mrc.items, spmigIndex, overrideIndex))
  {
    rollup, keys := rollup0, keys0;
    var j := 0;
    ghost var seen: seq<Entry> := [];
    assert mrc.items[..0] == [] && done + [] == done;
    while j < |mrc.items|
      invariant 0 <= j <= |mrc.items|
      invariant seen == ItemEntries(application, mrc, mrc.items[..j], spmigIndex, overrideIndex)
      invariant Accumulation(rollup, keys) == Group(done + seen)
    {
      var item := mrc.items[j];
      ItemEntriesSnoc(application, mrc, mrc.items, j, spmigIndex, overrideIndex);
      if item.spmigId in spmigIndex {
        var spmig := spmigIndex[item.spmigId];
        ghost var e := MakeEntry(application, mrc, item, spmig, overrideIndex);
        rollup, keys := AddItem(rollup, keys, application, mrc, item, spmig, overrideIndex);
        GroupSnoc(done + seen, e);
        assert (done + seen) + [e] == done + (seen + [e]);
        seen := seen + [e];
      }
      j := j + 1;
    }
    assert mrc.items[..j] == mrc.items;
  }

  /** Extending the lines by one adds that line's entry, if its material is known. */
  lemma ItemEntriesSnoc(
    app: MrcApplication, mrc: Mrc, items: seq<MrcItem>, j: int,
    spmigIndex: map<string, Spmig>, overrideIndex: map<string, ProjectOverride>)
    requires 0 <= j < |items|
    ensures ItemEntries(app, mrc, items[..j + 1], spmigIndex, overrideIndex)
         == ItemEntries(app, mrc, items[..j], spmigIndex, overrideIndex)
            + (if items[j].spmigId in spmigIndex
               then [MakeEntry(app, mrc, items[j], spmigIndex[items[j].spmigId], overrideIndex)]
               else [])
  {
    assert items[..j + 1][..j] == items[..j];
  }

  /**
   * The body of the inner loop for a line whose material is known: resolve the override, find or
   * create the row, add to its total and append the contribution.
   */
  method AddItem(
    rollup0: map<string, RollupRow>, keys0: seq<string>,
    application: MrcApplication, mrc: Mrc, item: MrcItem, spmig: Spmig,
    overrideIndex: map<string, ProjectOverride>)
    returns (rollup: map<string, RollupRow>, keys: seq<string>)
    ensures Accumulation(rollup, keys)
         == AddEntry(Accumulation(rollup0, keys0), MakeEntry(application, mrc, item, spmig, overrideIndex))
  {
    rollup, keys := rollup0, keys0;
    var override := Get(overrideIndex, OverrideKey(mrc.id, item.spmigId));
    var effectiveQtyPerOccur := ResolveEffectiveQty(item.qtyPerOccur, override);
    var totalFromMrc := application.occurrences * effectiveQtyPerOccur;
    var baseRow: RollupRow;
    if item.spmigId in rollup {
      baseRow := rollup[item.spmigId];
    } else {
      baseRow := RollupRow(
        spmigId := item.spmigId,
        description := spmig.description,
        uom := if item.uom != "" then item.uom else spmig.uom,
        unitCost := spmig.unitCost,
        packSize := spmig.packSize,
        totalNeeded := 0.0,
        orderQty := 0.0,
        extCost := None,
        contributions := []);
      keys := keys + [item.spmigId];
    }
    baseRow := baseRow.(totalNeeded := baseRow.totalNeeded + totalFromMrc);
    baseRow := baseRow.(contributions := baseRow.contributions + [RollupContribution(
      mrcId := mrc.id,
      mrcName := mrc.name,
      occurrences := application.occurrences,
      qtyPerOccur := item.qtyPerOccur,
      effectiveQtyPerOccur := effectiveQtyPerOccur,
      totalFromMrc := totalFromMrc)]);
    ghost var e := MakeEntry(application, mrc, item, spmig, overrideIndex);
    assert e.spmigId == item.spmigId;
    assert e.contribution == baseRow.contributions[|baseRow.contributions| - 1];
    assert keys == AddEntry(Accumulation(rollup0, keys0), e).order;
    rollup := rollup[item.spmigId := baseRow];
    assert rollup == AddEntry(Accumulation(rollup0, keys0), e).rows;
  }

  /** The second loop: every row of the Map gets its order quantity and extended cost. */
  method FinishRows(rollup0: map<string, RollupRow>, keys: seq<string>, spmigIndex: map<string, Spmig>)
    returns (rollup: map<string, RollupRow>)
    requires forall t :: 0 <= t < |keys| ==> keys[t] in rollup0
    requires forall k :: k in rollup0 ==> k in keys
    requires forall t, u :: 0 <= t < u < |keys| ==> keys[t] != keys[u]
    ensures rollup.Keys == rollup0.Keys
    ensures forall k :: k in rollup ==> rollup[k] == Finish(rollup0[k], spmigIndex)
  {
    rollup := rollup0;
    var k := 0;
    while k < |keys|
      invariant 0 <= k <= |keys|
      invariant rollup.Keys == rollup0.Keys
      invariant forall t :: 0 <= t < k ==> rollup[keys[t]] == Finish(rollup0[keys[t]], spmigIndex)
      invariant forall t :: k <= t < |keys| ==> rollup[keys[t]] == rollup0[keys[t]]
    {
      var spmigId := keys[k];
      var row := FinishRow(rollup[spmigId], spmigIndex);
      rollup := rollup[spmigId := row];
      k := k + 1;
    }
  }

  /** The body of the second loop for one row. */
  method FinishRow(row0: RollupRow, spmigIndex: map<string, Spmig>) returns (row: RollupRow)
    ensures row == Finish(row0, spmigIndex)
  {
    var spmig := Get(spmigIndex, row0.spmigId);
    var packSize := if spmig.Some? && spmig.value.packSize.Some? then spmig.value.packSize else row0.packSize;
    var orderQty := RoundToPacks(row0.totalNeeded, packSize);
    var extCost := row0.extCost;
    if row0.unitCost.Some? {
      extCost := Some(orderQty * row0.unitCost.value);
      SomeOf(Finish(row0, spmigIndex).extCost, orderQty * row0.unitCost.value);
    }
    row := row0.(orderQty := orderQty, extCost := extCost);
  }

  /** `packSize && packSize > 0 ? Math.ceil(totalNeeded / packSize) * packSize : totalNeeded`. */
  method RoundToPacks(totalNeeded: real, packSize: Option<real>) returns (orderQty: real)
    ensures orderQty == OrderQty(totalNeeded, packSize)
  {
    if packSize.Some? && packSize.value > 0.0 {
      orderQty := (Ceil(totalNeeded / packSize.value) as real) * packSize.value;
    } else {
      orderQty := totalNeeded;
    }
  }
}
