/**
 * What the rollup promises, proved about the specification in module ProjectRollup: which rows
 * exist, what each row holds, how it was created, and how the finished rows are rounded and priced.
 */
module RollupProperties {
  import opened Wrappers
  import opened Types
  import opened ProjectRollup

  // ---------------------------------------------------------------------------------------------
  // The entries: which (application, item) pairs contribute

  /** `e` is the entry of some application of `apps` and some line of its (known) template. */
  ghost predicate FromKnownLine(
    e: Entry, apps: seq<MrcApplication>, mrcIndex: map<string, Mrc>,
    spmigIndex: map<string, Spmig>, overrideIndex: map<string, ProjectOverride>)
  {
    exists a, it :: a in apps && a.mrcId in mrcIndex && it in mrcIndex[a.mrcId].items &&
      it.spmigId in spmigIndex &&
      e == MakeEntry(a, mrcIndex[a.mrcId], it, spmigIndex[it.spmigId], overrideIndex)
  }

  /** Every entry comes from a known template and a known material: unknown references add nothing. */
  lemma {:induction false} EntriesFromKnownLines(
    apps: seq<MrcApplication>, mrcIndex: map<string, Mrc>,
    spmigIndex: map<string, Spmig>, overrideIndex: map<string, ProjectOverride>)
    ensures forall e :: e in Entries(apps, mrcIndex, spmigIndex, overrideIndex) ==>
      FromKnownLine(e, apps, mrcIndex, spmigIndex, overrideIndex)
  {
    if apps != [] {
      var prefix := apps[..|apps| - 1];
      var app := apps[|apps| - 1];
      EntriesFromKnownLines(prefix, mrcIndex, spmigIndex, overrideIndex);
      forall e | e in Entries(prefix, mrcIndex, spmigIndex, overrideIndex)
        ensures FromKnownLine(e, apps, mrcIndex, spmigIndex, overrideIndex)
      {
        var a, it :| a in prefix && a.mrcId in mrcIndex && it in mrcIndex[a.mrcId].items &&
          it.spmigId in spmigIndex &&
          e == MakeEntry(a, mrcIndex[a.mrcId], it, spmigIndex[it.spmigId], overrideIndex);
        assert a in apps;
      }
      if app.mrcId in mrcIndex {
        var mrc := mrcIndex[app.mrcId];
        ItemEntriesFromLines(app, mrc, mrc.items, spmigIndex, overrideIndex);
      }
    }
  }

  lemma {:induction false} ItemEntriesFromLines(
    app: MrcApplication, mrc: Mrc, items: seq<MrcItem>,
    spmigIndex: map<string, Spmig>, overrideIndex: map<string, ProjectOverride>)
    ensures forall e :: e in ItemEntries(app, mrc, items, spmigIndex, overrideIndex) ==>
      exists it :: (it in items && it.spmigId in spmigIndex &&
        e == MakeEntry(app, mrc, it, spmigIndex[it.spmigId], overrideIndex))
  {
    if items != [] {
      var prefix := items[..|items| - 1];
      ItemEntriesFromLines(app, mrc, prefix, spmigIndex, overrideIndex);
      forall e | e in ItemEntries(app, mrc, prefix, spmigIndex, overrideIndex)
        ensures exists it :: (it in items && it.spmigId in spmigIndex &&
          e == MakeEntry(app, mrc, it, spmigIndex[it.spmigId], overrideIndex))
      {
        var it :| it in prefix && it.spmigId in spmigIndex &&
          e == MakeEntry(app, mrc, it, spmigIndex[it.spmigId], overrideIndex);
        assert it in items;
      }
    }
  }

  /**
   * Every line of every applied, known template whose material is known yields an entry, whatever
   * the application's occurrence count (zero and negative counts included).
   */
  lemma {:induction false} EveryKnownLineContributes(
    apps: seq<MrcApplication>, mrcIndex: map<string, Mrc>,
    spmigIndex: map<string, Spmig>, overrideIndex: map<string, ProjectOverride>,
    a: MrcApplication, it: MrcItem)
    requires a in apps && a.mrcId in mrcIndex && it in mrcIndex[a.mrcId].items && it.spmigId in spmigIndex
    ensures MakeEntry(a, mrcIndex[a.mrcId], it, spmigIndex[it.spmigId], overrideIndex)
            in Entries(apps, mrcIndex, spmigIndex, overrideIndex)
  {
    var prefix := apps[..|apps| - 1];
    if a == apps[|apps| - 1] {
      var mrc := mrcIndex[a.mrcId];
      LineContributes(a, mrc, mrc.items, spmigIndex, overrideIndex, it);
    } else {
      assert a in prefix by {
        var i :| 0 <= i < |apps| && apps[i] == a;
        assert i < |apps| - 1 && prefix[i] == a;
      }
      EveryKnownLineContributes(prefix, mrcIndex, spmigIndex, overrideIndex, a, it);
    }
  }

  lemma {:induction false} LineContributes(
    app: MrcApplication, mrc: Mrc, items: seq<MrcItem>,
    spmigIndex: map<string, Spmig>, overrideIndex: map<string, ProjectOverride>, it: MrcItem)
    requires it in items && it.spmigId in spmigIndex
    ensures MakeEntry(app, mrc, it, spmigIndex[it.spmigId], overrideIndex)
            in ItemEntries(app, mrc, items, spmigIndex, overrideIndex)
  {
    var prefix := items[..|items| - 1];
    if it != items[|items| - 1] {
      assert it in prefix by {
        var i :| 0 <= i < |items| && items[i] == it;
        assert i < |items| - 1 && prefix[i] == it;
      }
      LineContributes(app, mrc, prefix, spmigIndex, overrideIndex, it);
    }
  }

  /**
   * What one contribution records: the template, the occurrence count, the base quantity, the
   * quantity after the override for (template, material), and their product.
   */
  lemma ContributionOfLine(
    a: MrcApplication, mrc: Mrc, it: MrcItem, spmig: Spmig, overrideIndex: map<string, ProjectOverride>)
    ensures var c := MakeEntry(a, mrc, it, spmig, overrideIndex).contribution;
      && c.mrcId == mrc.id && c.mrcName == mrc.name
      && c.occurrences == a.occurrences
      && c.qtyPerOccur == it.qtyPerOccur
      && c.effectiveQtyPerOccur == ResolveEffectiveQty(it.qtyPerOccur, Get(overrideIndex, OverrideKey(mrc.id, it.spmigId)))
      && c.totalFromMrc == a.occurrences * c.effectiveQtyPerOccur
  {
  }

  // ---------------------------------------------------------------------------------------------
  // The fold: one row per material, holding exactly that material's contributions

  /** The position of the first entry for material `k`, or -1 when there is none. */
  function FirstEntryFor(es: seq<Entry>, k: string): (i: int)
    ensures -1 <= i < |es|
    ensures 0 <= i ==> es[i].spmigId == k
    ensures forall j :: 0 <= j < |es| && (i < 0 || j < i) ==> es[j].spmigId != k
  {
    if es == [] then -1
    else
      var i := FirstEntryFor(es[..|es| - 1], k);
      if 0 <= i then i else if es[|es| - 1].spmigId == k then |es| - 1 else -1
  }

  /** The contributions of the entries for material `k`, in entry order. */
  function ContributionsTo(es: seq<Entry>, k: string): seq<RollupContribution>
  {
    if es == [] then []
    else
      var prefix := ContributionsTo(es[..|es| - 1], k);
      if es[|es| - 1].spmigId == k then prefix + [es[|es| - 1].contribution] else prefix
  }

  /** The fields a row takes from the entry that created it (`uom` falls back on an empty line unit). */
  ghost predicate CreatedBy(row: RollupRow, e: Entry)
  {
    && row.spmigId == e.spmigId
    && row.description == e.spmig.description
    && row.uom == (if e.itemUom != "" then e.itemUom else e.spmig.uom)
    && row.unitCost == e.spmig.unitCost
    && row.packSize == e.spmig.packSize
    && row.orderQty == 0.0
    && row.extCost == None
  }

  /**
   * After the fold there is a row for `k` exactly when some entry is for `k`; that row was created
   * by the first such entry, and it holds all of their contributions, in order, and their sum.
   */
  lemma {:induction false} GroupRow(es: seq<Entry>, k: string)
    ensures k in Group(es).rows <==> 0 <= FirstEntryFor(es, k)
    ensures k !in Group(es).rows ==> ContributionsTo(es, k) == []
    ensures k in Group(es).rows ==>
      && CreatedBy(Group(es).rows[k], es[FirstEntryFor(es, k)])
      && Group(es).rows[k].contributions == ContributionsTo(es, k)
      && Group(es).rows[k].totalNeeded == SumTotals(ContributionsTo(es, k))
  {
    if es != [] {
      var prefix := es[..|es| - 1];
      var e := es[|es| - 1];
      GroupRow(prefix, k);
      if 0 <= FirstEntryFor(prefix, k) {
        assert es[FirstEntryFor(es, k)] == prefix[FirstEntryFor(prefix, k)];
      }
      if e.spmigId == k {
        var cs := ContributionsTo(es, k);
        assert cs[..|cs| - 1] == ContributionsTo(prefix, k);
      }
    }
  }

  /** The key order lists every material of the fold exactly once. */
  lemma OrderListsEachRowOnce(es: seq<Entry>)
    ensures var acc := Group(es);
      && (forall i :: 0 <= i < |acc.order| ==> acc.order[i] in acc.rows)
      && (forall k :: k in acc.rows ==> k in acc.order)
      && (forall i, j :: 0 <= i < j < |acc.order| ==> acc.order[i] != acc.order[j])
  {
    GroupWellFormed(es);
  }

  // ---------------------------------------------------------------------------------------------
  // The finished rows

  /** The entries of a project's rollup. */
  function ProjectEntries(project: Project, mrcs: seq<Mrc>, spmigs: seq<Spmig>, overrides: seq<ProjectOverride>): seq<Entry>
  {
    Entries(project.mrcApplications, MrcIndex(mrcs), SpmigIndex(spmigs), OverrideIndex(project.id, overrides))
  }

  /** Every entry carries the indexed material record for its material id. */
  lemma EntryMaterials(
    apps: seq<MrcApplication>, mrcIndex: map<string, Mrc>,
    spmigIndex: map<string, Spmig>, overrideIndex: map<string, ProjectOverride>)
    ensures forall e :: e in Entries(apps, mrcIndex, spmigIndex, overrideIndex) ==>
      e.spmigId in spmigIndex && e.spmig == spmigIndex[e.spmigId]
  {
    EntriesFromKnownLines(apps, mrcIndex, spmigIndex, overrideIndex);
  }

  /**
   * A row of the fold for a project, before the second pass: it copies its material's
   * description, unit cost and pack size, holds exactly the contributions to that material, and
   * totals them; it has no extended cost yet.
   */
  lemma GroupedRowFacts(project: Project, mrcs: seq<Mrc>, spmigs: seq<Spmig>, overrides: seq<ProjectOverride>, k: string)
    requires k in Grouped(project, mrcs, spmigs, overrides).rows
    ensures var row := Grouped(project, mrcs, spmigs, overrides).rows[k];
      var es := ProjectEntries(project, mrcs, spmigs, overrides);
      var spmigIndex := SpmigIndex(spmigs);
      && 0 <= FirstEntryFor(es, k)
      && row.spmigId == k
      && k in spmigIndex
      && row.description == spmigIndex[k].description
      && row.unitCost == spmigIndex[k].unitCost
      && row.packSize == spmigIndex[k].packSize
      && row.contributions == ContributionsTo(es, k)
      && row.totalNeeded == SumTotals(row.contributions)
      && row.extCost == None
  {
    var es := ProjectEntries(project, mrcs, spmigs, overrides);
    GroupRow(es, k);
    EntryMaterials(project.mrcApplications, MrcIndex(mrcs), SpmigIndex(spmigs), OverrideIndex(project.id, overrides));
    assert es[FirstEntryFor(es, k)] in es;
  }

  /**
   * Every row of the rollup: it is keyed by a material that received a contribution, it copies
   * that material's description, unit cost and pack size, and its total is the sum of exactly the
   * contributions to that material.
   */
  lemma RollupRowFacts(project: Project, mrcs: seq<Mrc>, spmigs: seq<Spmig>, overrides: seq<ProjectOverride>, t: int)
    requires 0 <= t < |UnsortedRollup(project, mrcs, spmigs, overrides)|
    ensures var r := UnsortedRollup(project, mrcs, spmigs, overrides)[t];
      var es := ProjectEntries(project, mrcs, spmigs, overrides);
      var spmigIndex := SpmigIndex(spmigs);
      && 0 <= FirstEntryFor(es, r.spmigId)
      && r.spmigId in spmigIndex
      && r.description == spmigIndex[r.spmigId].description
      && r.unitCost == spmigIndex[r.spmigId].unitCost
      && r.packSize == spmigIndex[r.spmigId].packSize
      && r.contributions == ContributionsTo(es, r.spmigId)
      && r.totalNeeded == SumTotals(r.contributions)
  {
    UnsortedRollupAt(project, mrcs, spmigs, overrides, t);
    var acc := Grouped(project, mrcs, spmigs, overrides);
    var k := acc.order[t];
    GroupedRowFacts(project, mrcs, spmigs, overrides, k);
    FinishedRowFacts(acc.rows[k], SpmigIndex(spmigs));
  }

  /**
   * The pricing of every row of the rollup: its order quantity is its total rounded up to whole
   * packs of a positive pack size (or the total itself), and it has an extended cost exactly when
   * it has a unit cost, equal to order quantity times unit cost.
   */
  lemma RollupRowPricing(project: Project, mrcs: seq<Mrc>, spmigs: seq<Spmig>, overrides: seq<ProjectOverride>, t: int)
    requires 0 <= t < |UnsortedRollup(project, mrcs, spmigs, overrides)|
    ensures var r := UnsortedRollup(project, mrcs, spmigs, overrides)[t];
      && (if r.packSize.Some? && r.packSize.value > 0.0 then
            && r.orderQty / r.packSize.value == (r.orderQty / r.packSize.value).Floor as real
            && r.totalNeeded <= r.orderQty < r.totalNeeded + r.packSize.value
          else r.orderQty == r.totalNeeded)
      && (r.extCost.Some? <==> r.unitCost.Some?)
      && (r.extCost.Some? ==> r.extCost.value == r.orderQty * r.unitCost.value)
  {
    UnsortedRollupAt(project, mrcs, spmigs, overrides, t);
    var acc := Grouped(project, mrcs, spmigs, overrides);
    var k := acc.order[t];
    GroupedRowPricingInputs(project, mrcs, spmigs, overrides, k);
    FinishedRowFacts(acc.rows[k], SpmigIndex(spmigs));
  }

  /** A row of the fold rounds with its own pack size, and has no extended cost yet. */
  lemma GroupedRowPricingInputs(project: Project, mrcs: seq<Mrc>, spmigs: seq<Spmig>, overrides: seq<ProjectOverride>, k: string)
    requires k in Grouped(project, mrcs, spmigs, overrides).rows
    ensures var row := Grouped(project, mrcs, spmigs, overrides).rows[k];
      PackSizeFor(row, SpmigIndex(spmigs)) == row.packSize && row.extCost == None
  {
    GroupedRowFacts(project, mrcs, spmigs, overrides, k);
  }

  /** The `t`-th row of the rollup is the finished `t`-th row of the Map, in insertion order. */
  lemma UnsortedRollupAt(project: Project, mrcs: seq<Mrc>, spmigs: seq<Spmig>, overrides: seq<ProjectOverride>, t: int)
    requires 0 <= t < |UnsortedRollup(project, mrcs, spmigs, overrides)|
    ensures var acc := Grouped(project, mrcs, spmigs, overrides);
      && t < |acc.order| && acc.order[t] in acc.rows
      && UnsortedRollup(project, mrcs, spmigs, overrides)[t] == Finish(acc.rows[acc.order[t]], SpmigIndex(spmigs))
  {
    GroupWellFormed(ProjectEntries(project, mrcs, spmigs, overrides));
  }

  /** The second pass rounds with the row's own pack size when that is the material's, and prices it. */
  lemma FinishedRowFacts(row: RollupRow, spmigIndex: map<string, Spmig>)
    requires PackSizeFor(row, spmigIndex) == row.packSize
    requires row.extCost == None
    ensures var r := Finish(row, spmigIndex);
      && r.spmigId == row.spmigId && r.description == row.description && r.uom == row.uom
      && r.unitCost == row.unitCost && r.packSize == row.packSize
      && r.contributions == row.contributions && r.totalNeeded == row.totalNeeded
      && (if r.packSize.Some? && r.packSize.value > 0.0 then
            && r.orderQty / r.packSize.value == (r.orderQty / r.packSize.value).Floor as real
            && r.totalNeeded <= r.orderQty < r.totalNeeded + r.packSize.value
          else r.orderQty == r.totalNeeded)
      && (r.extCost.Some? <==> r.unitCost.Some?)
      && (r.extCost.Some? ==> r.extCost.value == r.orderQty * r.unitCost.value)
  {
  }

  /** The rollup has one row per material that received a contribution, and no other. */
  lemma RollupKeys(project: Project, mrcs: seq<Mrc>, spmigs: seq<Spmig>, overrides: seq<ProjectOverride>)
    ensures var rows := UnsortedRollup(project, mrcs, spmigs, overrides);
      var es := ProjectEntries(project, mrcs, spmigs, overrides);
      && (forall t, u :: 0 <= t < u < |rows| ==> rows[t].spmigId != rows[u].spmigId)
      && (forall i :: 0 <= i < |es| ==> exists t :: 0 <= t < |rows| && rows[t].spmigId == es[i].spmigId)
  {
    var rows := UnsortedRollup(project, mrcs, spmigs, overrides);
    var es := ProjectEntries(project, mrcs, spmigs, overrides);
    var acc := Group(es);
    GroupWellFormed(es);
    forall t | 0 <= t < |rows|
      ensures rows[t].spmigId == acc.order[t]
    {
    }
    forall i | 0 <= i < |es|
      ensures exists t :: 0 <= t < |rows| && rows[t].spmigId == es[i].spmigId
    {
      GroupRow(es, es[i].spmigId);
      var t :| 0 <= t < |acc.order| && acc.order[t] == es[i].spmigId;
      assert rows[t].spmigId == es[i].spmigId;
    }
  }

  // ---------------------------------------------------------------------------------------------
  // Overrides

  /** Overrides that belong to other projects change nothing: the rollup is the one without overrides. */
  lemma ForeignOverridesIgnored(project: Project, mrcs: seq<Mrc>, spmigs: seq<Spmig>, overrides: seq<ProjectOverride>)
    requires forall o :: o in overrides ==> o.projectId != project.id
    ensures UnsortedRollup(project, mrcs, spmigs, overrides) == UnsortedRollup(project, mrcs, spmigs, [])
  {
    NoOverridesOfProject(project.id, overrides);
  }

  lemma {:induction false} NoOverridesOfProject(projectId: string, overrides: seq<ProjectOverride>)
    requires forall o :: o in overrides ==> o.projectId != projectId
    ensures OverrideIndex(projectId, overrides) == map[]
  {
    if overrides != [] {
      var prefix := overrides[..|overrides| - 1];
      assert forall o :: o in prefix ==> o in overrides;
      NoOverridesOfProject(projectId, prefix);
      assert overrides[|overrides| - 1] in overrides;
    }
  }

  /**
   * The override key `mrcId::spmigId` tells overrides apart as long as template ids hold no ':'
   * (material ids are then unconstrained).
   */
  lemma OverrideKeyInjective(m1: string, s1: string, m2: string, s2: string)
    requires ':' !in m1 && ':' !in m2
    ensures OverrideKey(m1, s1) == OverrideKey(m2, s2) <==> m1 == m2 && s1 == s2
  {
    var k1, k2 := OverrideKey(m1, s1), OverrideKey(m2, s2);
    if |m1| < |m2| {
      assert k1[|m1|] != k2[|m1|] by {
        assert k1[|m1|] == ':' && k2[|m1|] == m2[|m1|];
      }
    } else if |m2| < |m1| {
      assert k1[|m2|] != k2[|m2|] by {
        assert k2[|m2|] == ':' && k1[|m2|] == m1[|m2|];
      }
    } else if k1 == k2 {
      assert m1 == k1[..|m1|] == k2[..|m2|] == m2;
      assert s1 == k1[|m1| + 2..] == k2[|m2| + 2..] == s2;
    }
  }

  /** With a ':' in the ids, two different (template, material) pairs share one override key. */
  /** The override key also tells overrides apart when material ids hold no ':'. */
  lemma OverrideKeyInjectiveByMaterial(m1: string, s1: string, m2: string, s2: string)
    requires ':' !in s1 && ':' !in s2
    ensures OverrideKey(m1, s1) == OverrideKey(m2, s2) <==> m1 == m2 && s1 == s2
  {
    var k1, k2 := OverrideKey(m1, s1), OverrideKey(m2, s2);
    if |k1| == |k2| {
      if |s1| < |s2| {
        var p := |k1| - 1 - |s1|;
        assert k1[p] != k2[p] by {
          assert k1[p] == ':' && k2[p] == s2[|s2| - 1 - |s1|];
        }
      } else if |s2| < |s1| {
        var p := |k2| - 1 - |s2|;
        assert k1[p] != k2[p] by {
          assert k2[p] == ':' && k1[p] == s1[|s1| - 1 - |s2|];
        }
      } else if k1 == k2 {
        assert m1 == k1[..|m1|] == k2[..|m2|] == m2;
        assert s1 == k1[|m1| + 2..] == k2[|m2| + 2..] == s2;
      }
    }
  }

  /** With a ':' in both a template id and a material id, two different pairs share one override key. */
  lemma OverrideKeyCollision()
    ensures OverrideKey("x", ":y") == OverrideKey("x:", "y")
  {
    assert OverrideKey("x", ":y") == "x:::y";
    assert OverrideKey("x:", "y") == "x:::y";
  }
}
