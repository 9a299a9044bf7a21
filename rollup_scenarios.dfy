/**
 * The scenarios of src/utils/computeProjectRollup.test.ts, evaluated on the specification:
 * materials A (unit cost 2, pack of 10) and B (no cost, no pack), template mrc1 = [A: 3, B: 5],
 * template mrc2 = [A: 1], and a project applying mrc1 twice and mrc2 three times.
 */
module RollupScenarios {
  import opened Wrappers
  import opened Types
  import opened ProjectRollup
  import opened DescriptionOrder

  function Spmigs(): seq<Spmig>
  {
    [ Spmig("A", "Item A", None, None, None, None, "ea", Some(2.0), Some(10.0)),
      Spmig("B", "Item B", None, None, None, None, "ea", None, None) ]
  }

  function Mrcs(): seq<Mrc>
  {
    [ Mrc("mrc1", "MRC 1", [MrcItem("A", 3.0, "ea"), MrcItem("B", 5.0, "ea")]),
      Mrc("mrc2", "MRC 2", [MrcItem("A", 1.0, "ea")]) ]
  }

  function TestProject(): Project
  {
    Project("project1", "Test Project", [MrcApplication("mrc1", 2.0), MrcApplication("mrc2", 3.0)])
  }

  function ActualOverride(): ProjectOverride
  {
    ProjectOverride("ov1", "project1", "mrc2", "A", Some(2.0), None)
  }

  function FactorOverride(): ProjectOverride
  {
    ProjectOverride("ov2", "project1", "mrc1", "B", None, Some(0.5))
  }

  /** The material and template indexes of the scenario. */
  lemma ScenarioIndexes()
    ensures SpmigIndex(Spmigs()) == map["A" := Spmigs()[0], "B" := Spmigs()[1]]
    ensures MrcIndex(Mrcs()) == map["mrc1" := Mrcs()[0], "mrc2" := Mrcs()[1]]
  {
    assert Spmigs()[..1] == [Spmigs()[0]] && [Spmigs()[0]][..0] == [];
    assert Mrcs()[..1] == [Mrcs()[0]] && [Mrcs()[0]][..0] == [];
  }

  /** The entries of the project's first application, of mrc1: (mrc1, A) and (mrc1, B). */
  lemma FirstApplicationEntries(overrideIndex: map<string, ProjectOverride>)
    ensures var app, m1 := TestProject().mrcApplications[0], Mrcs()[0];
      ItemEntries(app, m1, m1.items, SpmigIndex(Spmigs()), overrideIndex)
      == [ MakeEntry(app, m1, m1.items[0], Spmigs()[0], overrideIndex),
           MakeEntry(app, m1, m1.items[1], Spmigs()[1], overrideIndex) ]
  {
    ScenarioIndexes();
    var spmigIndex := SpmigIndex(Spmigs());
    var app, m1 := TestProject().mrcApplications[0], Mrcs()[0];
    var e1 := MakeEntry(app, m1, m1.items[0], Spmigs()[0], overrideIndex);
    assert m1.items[..1] == [m1.items[0]] && [m1.items[0]][..0] == [];
    assert ItemEntries(app, m1, [m1.items[0]], spmigIndex, overrideIndex) == [e1];
  }

  /** The entries of the project's second application, of mrc2: (mrc2, A). */
  lemma SecondApplicationEntries(overrideIndex: map<string, ProjectOverride>)
    ensures var app, m2 := TestProject().mrcApplications[1], Mrcs()[1];
      ItemEntries(app, m2, m2.items, SpmigIndex(Spmigs()), overrideIndex)
      == [MakeEntry(app, m2, m2.items[0], Spmigs()[0], overrideIndex)]
  {
    ScenarioIndexes();
    var m2 := Mrcs()[1];
    assert [m2.items[0]][..0] == [];
  }

  /** The scenario's entries: (mrc1, A), (mrc1, B), (mrc2, A), with the given override index. */
  lemma ScenarioEntries(overrideIndex: map<string, ProjectOverride>)
    ensures var apps := TestProject().mrcApplications;
      Entries(apps, MrcIndex(Mrcs()), SpmigIndex(Spmigs()), overrideIndex)
      == [ MakeEntry(apps[0], Mrcs()[0], Mrcs()[0].items[0], Spmigs()[0], overrideIndex),
           MakeEntry(apps[0], Mrcs()[0], Mrcs()[0].items[1], Spmigs()[1], overrideIndex),
           MakeEntry(apps[1], Mrcs()[1], Mrcs()[1].items[0], Spmigs()[0], overrideIndex) ]
  {
    ScenarioIndexes();
    FirstApplicationEntries(overrideIndex);
    SecondApplicationEntries(overrideIndex);
    var mrcIndex, spmigIndex := MrcIndex(Mrcs()), SpmigIndex(Spmigs());
    var apps := TestProject().mrcApplications;
    var m1, m2 := Mrcs()[0], Mrcs()[1];
    var e1 := MakeEntry(apps[0], m1, m1.items[0], Spmigs()[0], overrideIndex);
    var e2 := MakeEntry(apps[0], m1, m1.items[1], Spmigs()[1], overrideIndex);
    var e3 := MakeEntry(apps[1], m2, m2.items[0], Spmigs()[0], overrideIndex);
    assert apps[..1] == [apps[0]] && [apps[0]][..0] == [];
    assert Entries([apps[0]], mrcIndex, spmigIndex, overrideIndex) == [e1, e2];
    assert Entries(apps, mrcIndex, spmigIndex, overrideIndex) == [e1, e2] + [e3];
  }

  /** Folding three entries, two for one material and one for another. */
  lemma GroupOfThree(e1: Entry, e2: Entry, e3: Entry)
    requires e1.spmigId == e3.spmigId != e2.spmigId
    ensures var acc := Group([e1, e2, e3]);
      && acc.order == [e1.spmigId, e2.spmigId]
      && e1.spmigId in acc.rows && e2.spmigId in acc.rows
      && acc.rows[e1.spmigId].contributions == [e1.contribution, e3.contribution]
      && acc.rows[e1.spmigId].totalNeeded == e1.contribution.totalFromMrc + e3.contribution.totalFromMrc
      && acc.rows[e1.spmigId].description == e1.spmig.description
      && acc.rows[e1.spmigId].unitCost == e1.spmig.unitCost
      && acc.rows[e1.spmigId].packSize == e1.spmig.packSize
      && acc.rows[e1.spmigId].extCost == None
      && acc.rows[e2.spmigId].contributions == [e2.contribution]
      && acc.rows[e2.spmigId].totalNeeded == e2.contribution.totalFromMrc
      && acc.rows[e2.spmigId].description == e2.spmig.description
      && acc.rows[e2.spmigId].unitCost == e2.spmig.unitCost
      && acc.rows[e2.spmigId].packSize == e2.spmig.packSize
      && acc.rows[e2.spmigId].extCost == None
  {
    var k1, k2 := e1.spmigId, e2.spmigId;
    var c1, c2, c3 := e1.contribution, e2.contribution, e3.contribution;
    var r1 := NewRow(e1).(totalNeeded := 0.0 + c1.totalFromMrc, contributions := [] + [c1]);
    var r2 := NewRow(e2).(totalNeeded := 0.0 + c2.totalFromMrc, contributions := [] + [c2]);
    var r3 := r1.(totalNeeded := r1.totalNeeded + c3.totalFromMrc, contributions := r1.contributions + [c3]);
    GroupSnoc([], e1);
    assert [] + [e1] == [e1];
    assert Group([e1]) == Accumulation(map[k1 := r1], [k1]);
    GroupSnoc([e1], e2);
    assert [e1] + [e2] == [e1, e2];
    assert Group([e1, e2]) == Accumulation(map[k1 := r1, k2 := r2], [k1, k2]);
    GroupSnoc([e1, e2], e3);
    assert [e1, e2] + [e3] == [e1, e2, e3];
    assert Group([e1, e2, e3]) == Accumulation(map[k1 := r3, k2 := r2], [k1, k2]);
  }

  /** The rollup of the scenario is the two finished rows of the fold of its three entries. */
  lemma ScenarioRows(overrides: seq<ProjectOverride>)
    ensures var overrideIndex := OverrideIndex("project1", overrides);
      var apps := TestProject().mrcApplications;
      var e1 := MakeEntry(apps[0], Mrcs()[0], Mrcs()[0].items[0], Spmigs()[0], overrideIndex);
      var e2 := MakeEntry(apps[0], Mrcs()[0], Mrcs()[0].items[1], Spmigs()[1], overrideIndex);
      var e3 := MakeEntry(apps[1], Mrcs()[1], Mrcs()[1].items[0], Spmigs()[0], overrideIndex);
      var acc := Group([e1, e2, e3]);
      && "A" in acc.rows && "B" in acc.rows
      && UnsortedRollup(TestProject(), Mrcs(), Spmigs(), overrides)
         == [Finish(acc.rows["A"], SpmigIndex(Spmigs())), Finish(acc.rows["B"], SpmigIndex(Spmigs()))]
      && acc.rows["A"].contributions == [e1.contribution, e3.contribution]
      && acc.rows["A"].totalNeeded == e1.contribution.totalFromMrc + e3.contribution.totalFromMrc
      && acc.rows["A"].description == "Item A"
      && acc.rows["A"].unitCost == Some(2.0) && acc.rows["A"].packSize == Some(10.0)
      && acc.rows["A"].extCost == None
      && acc.rows["B"].contributions == [e2.contribution]
      && acc.rows["B"].totalNeeded == e2.contribution.totalFromMrc
      && acc.rows["B"].description == "Item B"
      && acc.rows["B"].unitCost == None && acc.rows["B"].packSize == None
      && acc.rows["B"].extCost == None
  {
    var overrideIndex := OverrideIndex("project1", overrides);
    ScenarioEntries(overrideIndex);
    var apps := TestProject().mrcApplications;
    var e1 := MakeEntry(apps[0], Mrcs()[0], Mrcs()[0].items[0], Spmigs()[0], overrideIndex);
    var e2 := MakeEntry(apps[0], Mrcs()[0], Mrcs()[0].items[1], Spmigs()[1], overrideIndex);
    var e3 := MakeEntry(apps[1], Mrcs()[1], Mrcs()[1].items[0], Spmigs()[0], overrideIndex);
    GroupOfThree(e1, e2, e3);
  }

  /** Pricing the scenario's row A: a total of more than `n - 1` and at most `n` packs of 10 orders `n` packs, at 2 apiece. */
  lemma FinishRowA(row: RollupRow, n: int)
    requires row.spmigId == "A" && row.unitCost == Some(2.0) && row.packSize == Some(10.0)
    requires ((n - 1) as real) * 10.0 < row.totalNeeded <= (n as real) * 10.0
    ensures Finish(row, SpmigIndex(Spmigs())).orderQty == (n as real) * 10.0
    ensures Finish(row, SpmigIndex(Spmigs())).extCost == Some((n as real) * 20.0)
  {
    ScenarioIndexes();
    assert Ceil(row.totalNeeded / 10.0) == n;
    SomeOf(Finish(row, SpmigIndex(Spmigs())).extCost, (n as real) * 20.0);
  }

  /** Pricing the scenario's row B: no pack size and no unit cost. */
  lemma FinishRowB(row: RollupRow)
    requires row.spmigId == "B" && row.unitCost == None && row.packSize == None && row.extCost == None
    ensures Finish(row, SpmigIndex(Spmigs())).orderQty == row.totalNeeded
    ensures Finish(row, SpmigIndex(Spmigs())).extCost == None
  {
    ScenarioIndexes();
  }

  /**
   * With an actual-quantity override of 2 on (mrc2, A): A needs 2*3 + 3*2 = 12 from two
   * contributions, orders 20 (two packs of 10) and costs 40; B needs and orders 10 and has no cost.
   */
  lemma ActualOverrideScenario()
    ensures var rows := UnsortedRollup(TestProject(), Mrcs(), Spmigs(), [ActualOverride()]);
      && |rows| == 2
      && rows[0].spmigId == "A" && rows[0].totalNeeded == 12.0 && rows[0].orderQty == 20.0
      && rows[0].extCost == Some(40.0) && |rows[0].contributions| == 2
      && rows[1].spmigId == "B" && rows[1].totalNeeded == 10.0 && rows[1].orderQty == 10.0
      && rows[1].extCost == None
  {
    var ov := ActualOverride();
    var overrideIndex := OverrideIndex("project1", [ov]);
    assert [ov][..0] == [];
    assert overrideIndex == map["mrc2::A" := ov];
    assert OverrideKey("mrc1", "A") != "mrc2::A" by { assert OverrideKey("mrc1", "A")[3] == '1'; }
    assert OverrideKey("mrc1", "B") != "mrc2::A" by { assert OverrideKey("mrc1", "B")[3] == '1'; }
    ScenarioRows([ov]);
    var apps := TestProject().mrcApplications;
    var e1 := MakeEntry(apps[0], Mrcs()[0], Mrcs()[0].items[0], Spmigs()[0], overrideIndex);
    var e2 := MakeEntry(apps[0], Mrcs()[0], Mrcs()[0].items[1], Spmigs()[1], overrideIndex);
    var e3 := MakeEntry(apps[1], Mrcs()[1], Mrcs()[1].items[0], Spmigs()[0], overrideIndex);
    assert e1.contribution.totalFromMrc == 6.0;
    assert e2.contribution.totalFromMrc == 10.0;
    assert e3.contribution.totalFromMrc == 6.0;
    var acc := Group([e1, e2, e3]);
    GroupWellFormed([e1, e2, e3]);
    FinishRowA(acc.rows["A"], 2);
    FinishRowB(acc.rows["B"]);
  }

  /**
   * Without overrides: A needs 2*3 + 3*1 = 9, orders 10 and costs 20; B needs and orders 10 and
   * has no cost.
   */
  lemma NoOverrideScenario()
    ensures var rows := UnsortedRollup(TestProject(), Mrcs(), Spmigs(), []);
      && |rows| == 2
      && rows[0].spmigId == "A" && rows[0].totalNeeded == 9.0 && rows[0].orderQty == 10.0
      && rows[0].extCost == Some(20.0)
      && rows[1].spmigId == "B" && rows[1].totalNeeded == 10.0 && rows[1].orderQty == 10.0
      && rows[1].extCost == None
  {
    var overrideIndex := OverrideIndex("project1", []);
    assert overrideIndex == map[];
    ScenarioRows([]);
    var apps := TestProject().mrcApplications;
    var e1 := MakeEntry(apps[0], Mrcs()[0], Mrcs()[0].items[0], Spmigs()[0], overrideIndex);
    var e2 := MakeEntry(apps[0], Mrcs()[0], Mrcs()[0].items[1], Spmigs()[1], overrideIndex);
    var e3 := MakeEntry(apps[1], Mrcs()[1], Mrcs()[1].items[0], Spmigs()[0], overrideIndex);
    assert e1.contribution.totalFromMrc == 6.0;
    assert e2.contribution.totalFromMrc == 10.0;
    assert e3.contribution.totalFromMrc == 3.0;
    var acc := Group([e1, e2, e3]);
    GroupWellFormed([e1, e2, e3]);
    FinishRowA(acc.rows["A"], 1);
    FinishRowB(acc.rows["B"]);
  }

  /** With a factor override of 0.5 on (mrc1, B): B needs 2 * (5 * 0.5) = 5, and A is unaffected. */
  lemma FactorOverrideScenario()
    ensures var rows := UnsortedRollup(TestProject(), Mrcs(), Spmigs(), [FactorOverride()]);
      && |rows| == 2
      && rows[0].spmigId == "A" && rows[0].totalNeeded == 9.0
      && rows[1].spmigId == "B" && rows[1].totalNeeded == 5.0
  {
    var ov := FactorOverride();
    var overrideIndex := OverrideIndex("project1", [ov]);
    assert [ov][..0] == [];
    assert overrideIndex == map["mrc1::B" := ov];
    assert OverrideKey("mrc1", "A") != "mrc1::B" by { assert OverrideKey("mrc1", "A")[6] == 'A'; }
    assert OverrideKey("mrc2", "A") != "mrc1::B" by { assert OverrideKey("mrc2", "A")[3] == '2'; }
    ScenarioRows([ov]);
    var apps := TestProject().mrcApplications;
    var e1 := MakeEntry(apps[0], Mrcs()[0], Mrcs()[0].items[0], Spmigs()[0], overrideIndex);
    var e2 := MakeEntry(apps[0], Mrcs()[0], Mrcs()[0].items[1], Spmigs()[1], overrideIndex);
    var e3 := MakeEntry(apps[1], Mrcs()[1], Mrcs()[1].items[0], Spmigs()[0], overrideIndex);
    assert Get(overrideIndex, OverrideKey("mrc1", "B")) == Some(ov);
    assert ResolveEffectiveQty(5.0, Some(ov)) == 2.5;
    assert e1.contribution.totalFromMrc == 6.0;
    assert e2.contribution.totalFromMrc == 5.0;
    assert e3.contribution.totalFromMrc == 3.0;
    GroupWellFormed([e1, e2, e3]);
  }

  /** "Item B" sorts strictly after "Item A". */
  lemma ItemBAfterItemA()
    ensures !LessEq("Item B", "Item A")
  {
    var a, b := "Item A", "Item B";
    assert b[1..] == "tem B" && a[1..] == "tem A";
    assert b[1..][1..] == "em B" && a[1..][1..] == "em A";
    assert b[1..][1..][1..] == "m B" && a[1..][1..][1..] == "m A";
    assert b[1..][1..][1..][1..] == " B" && a[1..][1..][1..][1..] == " A";
    assert b[1..][1..][1..][1..][1..] == "B" && a[1..][1..][1..][1..][1..] == "A";
  }

  /** Two rows whose descriptions are strictly out of order have exactly one ascending arrangement. */
  lemma SortedPair(ra: RollupRow, rb: RollupRow, result: seq<RollupRow>)
    requires !LessEq(rb.description, ra.description)
    requires SortedByDescription(result)
    requires multiset(result) == multiset([ra, rb])
    ensures result == [ra, rb]
  {
    assert |result| == 2 by {
      assert |multiset(result)| == |multiset([ra, rb])|;
    }
    assert result == [result[0], result[1]];
    assert ra != rb;
    assert multiset(result) == multiset{result[0], result[1]};
    assert result[0] != result[1];
    assert result[0] in multiset([ra, rb]) && result[1] in multiset([ra, rb]);
    assert LessEq(result[0].description, result[1].description);
    assert result[0] == ra;
  }

  /**
   * The sorted result of the scenario: whatever the overrides, any ascending arrangement of its
   * rows (which `ComputeProjectRollup` returns) lists "Item A" before "Item B".
   */
  lemma ScenarioSortedResult(overrides: seq<ProjectOverride>, result: seq<RollupRow>)
    requires SortedByDescription(result)
    requires multiset(result) == multiset(UnsortedRollup(TestProject(), Mrcs(), Spmigs(), overrides))
    ensures result == UnsortedRollup(TestProject(), Mrcs(), Spmigs(), overrides)
  {
    ScenarioRows(overrides);
    ScenarioIndexes();
    var rows := UnsortedRollup(TestProject(), Mrcs(), Spmigs(), overrides);
    assert rows == [rows[0], rows[1]];
    var ra, rb := rows[0], rows[1];
    assert ra.description == "Item A" && rb.description == "Item B";
    ItemBAfterItemA();
    SortedPair(ra, rb, result);
  }
}
