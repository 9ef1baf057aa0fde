/**
 * Concrete upgrades and income changes, derived from the contracts of the
 * building service alone.
 */
module Scenarios {
  import opened Wrappers
  import opened Resources
  import opened Ledger
  import opened Catalog
  import opened BuildingService

  /** Building type 1 at level 1; level 2 costs `stone` STONE and `wood` WOOD and takes 600 seconds. */
  function QuarryCatalog(stone: int, wood: int): Catalog
  {
    map[(1, 2) := LevelSpec(Some(map[Stone := stone, Wood := wood]), Some(600), None)]
  }

  /** STONE 100 and WOOD 50 without income: a level costing 80 STONE and 60 WOOD is declined and nothing is paid. */
  method DeclinedForLackOfWood() returns (outcome: Outcome, stone: int, wood: int, level: Option<int>)
    ensures outcome == Conflict
    ensures stone == 100 && wood == 50 && level == Some(1)
  {
    var village := new Village(map[1 := Building(Some(1), 0)],
                               [ResourceRow(Stone, 100, 0, 0), ResourceRow(Wood, 50, 0, 0)]);
    assert FindRow(Checkpointed([ResourceRow(Stone, 100, 0, 0), ResourceRow(Wood, 50, 0, 0)], 1000), Wood) == Some(1);
    assert CheckpointRow(ResourceRow(Wood, 50, 0, 0), 1000).stored == 50;
    outcome := village.Upgrade(QuarryCatalog(80, 60), 1, 1000);
    stone, wood := village.resources[0].stored, village.resources[1].stored;
    level := village.buildings[1].level;
  }

  /** The same village and a level costing 80 STONE and 40 WOOD: it is built, leaving 20 STONE and 10 WOOD. */
  method UpgradedWithChange() returns (outcome: Outcome, stone: int, wood: int, building: Building)
    ensures outcome == Success
    ensures stone == 20 && wood == 10 && building == Building(Some(2), 1600)
  {
    var village := new Village(map[1 := Building(Some(1), 0)],
                               [ResourceRow(Stone, 100, 0, 0), ResourceRow(Wood, 50, 0, 0)]);
    assert FindRow(Checkpointed([ResourceRow(Stone, 100, 0, 0), ResourceRow(Wood, 50, 0, 0)], 1000), Wood) == Some(1);
    assert CheckpointRow(ResourceRow(Stone, 100, 0, 0), 1000).stored == 100;
    assert CheckpointRow(ResourceRow(Wood, 50, 0, 0), 1000).stored == 50;
    outcome := village.Upgrade(QuarryCatalog(80, 40), 1, 1000);
    stone, wood := village.resources[0].stored, village.resources[1].stored;
    building := village.buildings[1];
  }

  /** Exactly enough of both: the threshold is inclusive, so the upgrade goes through and leaves zero of each. */
  method UpgradedWithExactAmounts() returns (outcome: Outcome, stone: int, wood: int)
    ensures outcome == Success
    ensures stone == 0 && wood == 0
  {
    var village := new Village(map[1 := Building(Some(1), 0)],
                               [ResourceRow(Stone, 80, 0, 0), ResourceRow(Wood, 40, 0, 0)]);
    assert FindRow(Checkpointed([ResourceRow(Stone, 80, 0, 0), ResourceRow(Wood, 40, 0, 0)], 1000), Wood) == Some(1);
    assert CheckpointRow(ResourceRow(Stone, 80, 0, 0), 1000).stored == 80;
    assert CheckpointRow(ResourceRow(Wood, 40, 0, 0), 1000).stored == 40;
    outcome := village.Upgrade(QuarryCatalog(80, 40), 1, 1000);
    stone, wood := village.resources[0].stored, village.resources[1].stored;
  }

  /**
   * STONE 50 earning 3600 an hour, last updated 30 seconds ago: the checkpoint
   * counts 80 STONE, enough for a cost of 80.
   */
  method IncomeCountedBeforePaying() returns (outcome: Outcome, stone: int)
    ensures outcome == Success
    ensures stone == 0
  {
    var village := new Village(map[1 := Building(Some(1), 0)],
                               [ResourceRow(Stone, 50, 970, 3600), ResourceRow(Wood, 40, 0, 0)]);
    assert FindRow(Checkpointed([ResourceRow(Stone, 50, 970, 3600), ResourceRow(Wood, 40, 0, 0)], 1000), Wood) == Some(1);
    assert CheckpointRow(ResourceRow(Stone, 50, 970, 3600), 1000).stored == 80;
    assert CheckpointRow(ResourceRow(Wood, 40, 0, 0), 1000).stored == 40;
    outcome := village.Upgrade(QuarryCatalog(80, 40), 1, 1000);
    stone := village.resources[0].stored;
  }

  /** A level without an income entry: applying its income changes nothing and is not an error. */
  method NoIncomeIsNoChange() returns (outcome: Outcome, rows: seq<ResourceRow>)
    ensures outcome == Success
    ensures rows == [ResourceRow(Stone, 100, 0, 5), ResourceRow(Wood, 50, 0, 7)]
  {
    var village := new Village(map[1 := Building(Some(2), 0)],
                               [ResourceRow(Stone, 100, 0, 5), ResourceRow(Wood, 50, 0, 7)]);
    outcome := village.ApplyIncome(QuarryCatalog(80, 40), 1);
    rows := village.resources;
  }

  /**
   * A building already at the last level of the catalog: the upgrade fails
   * before the checkpoint, so even income earned since the last update is
   * not rolled in.
   */
  method LastLevelLeavesRowsAlone() returns (outcome: Outcome, rows: seq<ResourceRow>)
    ensures outcome == Error(CatalogEntryMissing)
    ensures rows == [ResourceRow(Stone, 50, 970, 3600), ResourceRow(Wood, 40, 0, 0)]
  {
    var village := new Village(map[1 := Building(Some(2), 0)],
                               [ResourceRow(Stone, 50, 970, 3600), ResourceRow(Wood, 40, 0, 0)]);
    assert CheckpointRow(ResourceRow(Stone, 50, 970, 3600), 1000).stored == 80;
    outcome := village.Upgrade(QuarryCatalog(80, 40), 1, 1000);
    rows := village.resources;
  }

  /** A level producing 90 WOOD an hour: WOOD gets that income and keeps its stored amount and update time. */
  method IncomeReplacesRate() returns (outcome: Outcome, rows: seq<ResourceRow>)
    ensures outcome == Success
    ensures rows == [ResourceRow(Stone, 100, 0, 5), ResourceRow(Wood, 50, 0, 90)]
  {
    var catalog := map[(4, 2) := LevelSpec(None, None, Some(Income(Wood, 90)))];
    var village := new Village(map[4 := Building(Some(2), 0)],
                               [ResourceRow(Stone, 100, 0, 5), ResourceRow(Wood, 50, 0, 7)]);
    outcome := village.ApplyIncome(catalog, 4);
    assert FindRow([ResourceRow(Stone, 100, 0, 5), ResourceRow(Wood, 50, 0, 7)], Wood) == Some(1);
    rows := village.resources;
  }

  /**
   * No checkpoint happens before the rate changes: WOOD held 50 since t = 0
   * without income, a level producing 3600 WOOD an hour is applied, and at
   * t = 1000 the row is worth 1050, because the new rate also counts the
   * 1000 seconds in which the row earned nothing.
   */
  method NewRateCountsBackwards() returns (outcome: Outcome, worthBefore: real, worthAfter: real)
    ensures outcome == Success
    ensures worthBefore == 50.0 && worthAfter == 1050.0
  {
    var catalog := map[(4, 2) := LevelSpec(None, None, Some(Income(Wood, 3600)))];
    var village := new Village(map[4 := Building(Some(2), 0)],
                               [ResourceRow(Stone, 100, 0, 0), ResourceRow(Wood, 50, 0, 0)]);
    worthBefore := AmountAt(village.resources[1], 1000);
    outcome := village.ApplyIncome(catalog, 4);
    assert FindRow([ResourceRow(Stone, 100, 0, 0), ResourceRow(Wood, 50, 0, 0)], Wood) == Some(1);
    worthAfter := AmountAt(village.resources[1], 1000);
  }
}
