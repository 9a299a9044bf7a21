/**
 * The records the rollup engine reads and produces (src/types.ts).
 * Every JavaScript `number` is an exact `real`; every optional field is an `Option`.
 */
module Types {
  import opened Wrappers

  /** A material ("SPMIG"): an orderable item. */
  datatype Spmig = Spmig(
    id: string,
    description: string,
    partNumber: Option<string>,
    spmigCode: Option<string>,
    suffix: Option<string>,
    niin: Option<string>,
    uom: string,
    unitCost: Option<real>,
    packSize: Option<real>)

  /** One line of a usage template: so much of a material per occurrence. */
  datatype MrcItem = MrcItem(spmigId: string, qtyPerOccur: real, uom: string)

  /** A usage template ("MRC"): an ordered bundle of material lines. */
  datatype Mrc = Mrc(id: string, name: string, items: seq<MrcItem>)

  /** A project applies a template some number of times. */
  datatype MrcApplication = MrcApplication(mrcId: string, occurrences: real)

  datatype Project = Project(id: string, name: string, mrcApplications: seq<MrcApplication>)

  /** A per-project, per-template, per-material correction of the consumption rate. */
  datatype ProjectOverride = ProjectOverride(
    id: string,
    projectId: string,
    mrcId: string,
    spmigId: string,
    actualQtyPerOccur: Option<real>,
    factor: Option<real>)

  /** One template line's share of a rollup row. */
  datatype RollupContribution = RollupContribution(
    mrcId: string,
    mrcName: string,
    occurrences: real,
    qtyPerOccur: real,
    effectiveQtyPerOccur: real,
    totalFromMrc: real)

  /** The aggregated demand for one material. */
  datatype RollupRow = RollupRow(
    spmigId: string,
    description: string,
    uom: string,
    unitCost: Option<real>,
    packSize: Option<real>,
    totalNeeded: real,
    orderQty: real,
    extCost: Option<real>,
    contributions: seq<RollupContribution>)
}
