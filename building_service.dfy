/**
 * The building service of one village: upgrading a building by one level
 * (pay the next level's cost from STONE and WOOD, then start construction)
 * and switching a resource's income to the one of a building's level.
 * The village's building rows and resource rows are the state that the
 * repositories hold; the catalog and the clock are passed in.
 */
module BuildingService {
  import opened Wrappers
  import opened Resources
  import opened Ledger
  import opened Catalog

  /** A building row: its level (a null column is None) and the time its construction completes. */
  datatype Building = Building(level: Option<int>, updateTime: int)

  /** Why an operation failed, as opposed to being declined. */
  datatype Failure =
    | BuildingNotFound     // no building of that type in the village
    | LevelMissing         // the building row has no level
    | CatalogEntryMissing  // the next level, its costs or its build time is not in the catalog
    | ResourceRowMissing   // the village has no row for a resource the operation needs
    | CostMissing          // the next level's costs do not name STONE or WOOD

  /** Outcome of an operation: done, declined for lack of resources, or failed. */
  datatype Outcome = Success | Conflict | Error(failure: Failure)

  /**
   * The rows `after` are the rows `before` checkpointed at `now`, with the
   * cost of STONE and of WOOD paid from those two kinds.
   */
  ghost predicate PaidAt(before: seq<ResourceRow>, after: seq<ResourceRow>, costs: map<ResourceType, int>, now: int)
    requires Stone in costs && Wood in costs
  {
    && |after| == |before|
    && forall i :: 0 <= i < |before| ==>
         var c := CheckpointRow(before[i], now);
         var t := before[i].resourceType;
         if t == Stone || t == Wood then
           after[i] == c.(stored := c.stored - costs[t]) && after[i].stored >= 0
         else
           after[i] == c
  }

  /**
   * The outcome and the new state of the steps of an upgrade after its
   * lookups, from the rows `before` and the buildings `built`: the rows are
   * checkpointed at `now`; a missing STONE or WOOD row or cost fails; if
   * both rows cover their cost, both are paid and building `typeId` gets
   * level `next`, completing `seconds` after `now`; otherwise Conflict.
   */
  ghost predicate Settled(
    before: seq<ResourceRow>, built: map<int, Building>,
    after: seq<ResourceRow>, rebuilt: map<int, Building>, outcome: Outcome,
    typeId: int, next: int, price: map<ResourceType, int>, seconds: int, now: int)
  {
    var rows := Checkpointed(before, now);
    var stoneAt, woodAt := FindRow(rows, Stone), FindRow(rows, Wood);
    if stoneAt.None? || woodAt.None? then
      outcome == Error(ResourceRowMissing) && rebuilt == built && after == rows
    else if Stone !in price || Wood !in price then
      outcome == Error(CostMissing) && rebuilt == built && after == rows
    else
      var stone, wood := rows[stoneAt.value], rows[woodAt.value];
      var stoneLeft := RemainingAfter(stone, price[Stone], now);
      var woodLeft := RemainingAfter(wood, price[Wood], now);
      if stoneLeft >= 0.0 && woodLeft >= 0.0 then
        && outcome == Success
        && after == ApplyUpdates(rows, [ResourceUpdate(Stone, stoneLeft.Floor, stone.income),
                                        ResourceUpdate(Wood, woodLeft.Floor, wood.income)])
        && rebuilt == built[typeId := Building(Some(next), now + seconds)]
      else
        outcome == Conflict && rebuilt == built && after == rows
  }

  /**
   * The outcome and the new state of an upgrade of building `typeId` at
   * `now`, from the rows `before` and the buildings `built`: a missing
   * building, a null level, or missing costs or build time of the next
   * level fail with nothing changed; otherwise the steps after the lookups
   * follow, as `Settled` says.
   */
  ghost predicate Upgraded(
    catalog: Catalog, typeId: int, now: int,
    before: seq<ResourceRow>, built: map<int, Building>,
    after: seq<ResourceRow>, rebuilt: map<int, Building>, outcome: Outcome)
  {
    if typeId !in built then
      outcome == Error(BuildingNotFound) && after == before && rebuilt == built
    else if built[typeId].level.None? then
      outcome == Error(LevelMissing) && after == before && rebuilt == built
    else
      var next := built[typeId].level.value + 1;
      var costs := UpdateDetails(catalog, typeId, next, UpdateCosts);
      var duration := UpdateDetails(catalog, typeId, next, BuildingTime);
      if costs.None? || duration.None? then
        outcome == Error(CatalogEntryMissing) && after == before && rebuilt == built
      else
        Settled(before, built, after, rebuilt, outcome, typeId, next, costs.value.costs, duration.value.seconds, now)
  }

  /**
   * A committed upgrade of building `typeId` at `now`: the building existed
   * with a level, the next level has costs naming STONE and WOOD and a build
   * time, exactly those two costs were paid from the rows checkpointed at
   * `now`, and the building has the next level, completing the build time
   * after `now`.
   */
  ghost predicate Committed(
    catalog: Catalog, typeId: int, now: int,
    before: seq<ResourceRow>, built: map<int, Building>,
    after: seq<ResourceRow>, rebuilt: map<int, Building>)
  {
    && typeId in built && built[typeId].level.Some?
    && var next := built[typeId].level.value + 1;
       var costs := UpdateDetails(catalog, typeId, next, UpdateCosts);
       var duration := UpdateDetails(catalog, typeId, next, BuildingTime);
       && costs.Some? && duration.Some?
       && Stone in costs.value.costs && Wood in costs.value.costs
       && PaidAt(before, after, costs.value.costs, now)
       && rebuilt == built[typeId := Building(Some(next), now + duration.value.seconds)]
  }

  /**
   * Building `typeId` can be upgraded at `now`: it has a level, the next
   * level has costs and a build time, the village has STONE and WOOD rows,
   * the costs name both, and once checkpointed at `now` each of the two
   * rows holds at least its cost (holding exactly the cost is enough).
   */
  ghost predicate Affordable(
    catalog: Catalog, typeId: int, now: int,
    before: seq<ResourceRow>, built: map<int, Building>)
  {
    && typeId in built && built[typeId].level.Some?
    && var next := built[typeId].level.value + 1;
       var costs := UpdateDetails(catalog, typeId, next, UpdateCosts);
       var duration := UpdateDetails(catalog, typeId, next, BuildingTime);
       && costs.Some? && duration.Some?
       && var rows := Checkpointed(before, now);
          var stoneAt, woodAt := FindRow(rows, Stone), FindRow(rows, Wood);
          && stoneAt.Some? && woodAt.Some?
          && Stone in costs.value.costs && Wood in costs.value.costs
          && rows[stoneAt.value].stored >= costs.value.costs[Stone]
          && rows[woodAt.value].stored >= costs.value.costs[Wood]
  }

  class Village {
    /** Building rows, keyed by building type id. */
    var buildings: map<int, Building>
    /** Resource rows, in the order the resource service lists them. */
    var resources: seq<ResourceRow>

    ghost predicate Valid()
      reads this
    {
      DistinctTypes(resources)
    }

    constructor (buildings: map<int, Building>, resources: seq<ResourceRow>)
      requires DistinctTypes(resources)
      ensures Valid()
      ensures this.buildings == buildings && this.resources == resources
    {
      this.buildings := buildings;
      this.resources := resources;
    }

    /** The resource service's aggregate-and-update: checkpoint every resource row at `now`. */
    method AggregateAndUpdate(now: int)
      requires Valid()
      modifies this
      ensures Valid()
      ensures resources == Checkpointed(old(resources), now)
      ensures buildings == old(buildings)
    {
      CheckpointedKeepsDistinct(resources, now);
      resources := Checkpointed(resources, now);
    }

    /** The resource service's bulk update: write amount and income of the named kinds. */
    method UpdateResources(updates: seq<ResourceUpdate>)
      requires Valid()
      modifies this
      ensures Valid()
      ensures resources == ApplyUpdates(old(resources), updates)
      ensures buildings == old(buildings)
    {
      ApplyUpdatesKeepsDistinct(resources, updates);
      resources := ApplyUpdates(resources, updates);
    }

    /**
     * Upgrade the building of type `typeId` by one level at instant `now`.
     * The next level's costs and build time are looked up first; then the
     * resources are checkpointed; then, if both STONE and WOOD cover their
     * cost, both are paid and the building gets the next level and the
     * completion time `now` plus the build time. Otherwise the result is
     * Conflict and only the checkpoint has happened.
     */
    method Upgrade(catalog: Catalog, typeId: int, now: int) returns (outcome: Outcome)
      requires Valid()
      modifies this
      ensures Valid()
      ensures Upgraded(catalog, typeId, now, old(resources), old(buildings), resources, buildings, outcome)
      // What that means (see UpgradeMeaning): only a success touches the
      // buildings, raising the level by exactly one and setting the
      // completion time to now plus the next level's build time; a success
      // pays exactly the next level's STONE and WOOD costs.
      ensures outcome != Success ==> buildings == old(buildings)
      ensures outcome == Error(BuildingNotFound) || outcome == Error(LevelMissing) || outcome == Error(CatalogEntryMissing) ==>
        resources == old(resources)
      ensures outcome == Conflict || outcome == Error(ResourceRowMissing) || outcome == Error(CostMissing) ==>
        resources == Checkpointed(old(resources), now)
      ensures outcome == Success <==> Affordable(catalog, typeId, now, old(resources), old(buildings))
      ensures outcome == Success ==> Committed(catalog, typeId, now, old(resources), old(buildings), resources, buildings)
    {
      if typeId !in buildings {
        outcome := Error(BuildingNotFound);
      } else if buildings[typeId].level.None? {
        outcome := Error(LevelMissing);
      } else {
        var next := buildings[typeId].level.value + 1;
        var costs := UpdateDetails(catalog, typeId, next, UpdateCosts);
        var duration := UpdateDetails(catalog, typeId, next, BuildingTime);
        if costs.None? || duration.None? {
          outcome := Error(CatalogEntryMissing);
        } else {
          outcome := Settle(typeId, next, costs.value.costs, duration.value.seconds, now);
        }
      }
      UpgradeMeaning(catalog, typeId, now, old(resources), old(buildings), resources, buildings, outcome);
    }

    /**
     * The steps of an upgrade after the lookups of level `next`: checkpoint
     * the resources at `now`, read the STONE and WOOD rows and their costs
     * in `price`, and, if both rows cover their cost, pay both and give
     * building `typeId` level `next`, completing `seconds` after `now`.
     */
    method Settle(typeId: int, next: int, price: map<ResourceType, int>, seconds: int, now: int) returns (outcome: Outcome)
      requires Valid()
      modifies this
      ensures Valid()
      ensures Settled(old(resources), old(buildings), resources, buildings, outcome,
                      typeId, next, price, seconds, now)
    {
      AggregateAndUpdate(now);

      var stoneAt, woodAt := FindRow(resources, Stone), FindRow(resources, Wood);
      if stoneAt.None? || woodAt.None? {
        return Error(ResourceRowMissing);
      }
      var stone, wood := resources[stoneAt.value], resources[woodAt.value];
      if Stone !in price || Wood !in price {
        return Error(CostMissing);
      }
      var stoneLeft := RemainingAfter(stone, price[Stone], now);
      var woodLeft := RemainingAfter(wood, price[Wood], now);
      if stoneLeft >= 0.0 && woodLeft >= 0.0 {
        UpdateResources([ResourceUpdate(Stone, stoneLeft.Floor, stone.income),
                         ResourceUpdate(Wood, woodLeft.Floor, wood.income)]);
        buildings := buildings[typeId := Building(Some(next), now + seconds)];
        return Success;
      }
      return Conflict;
    }

    /**
     * Give the resource that the current level of building `typeId` produces
     * that level's income, keeping its stored amount. A level without an
     * income in the catalog is not an error: nothing changes.
     */
    method ApplyIncome(catalog: Catalog, typeId: int) returns (outcome: Outcome)
      requires Valid()
      modifies this
      ensures Valid()
      ensures buildings == old(buildings)
      ensures outcome != Conflict
      ensures typeId !in old(buildings) ==> outcome == Error(BuildingNotFound) && unchanged(this)
      ensures typeId in old(buildings) && old(buildings)[typeId].level.None? ==>
        outcome == Error(LevelMissing) && unchanged(this)
      ensures typeId in old(buildings) && old(buildings)[typeId].level.Some? ==>
        var produced := UpdateDetails(catalog, typeId, old(buildings)[typeId].level.value, Produces);
        if produced.None? then
          outcome == Success && unchanged(this)
        else
          var income := produced.value.income;
          if FindRow(old(resources), income.resourceType).None? then
            outcome == Error(ResourceRowMissing) && unchanged(this)
          else
            && outcome == Success
            && |resources| == |old(resources)|
            && forall i :: 0 <= i < |resources| ==>
                 resources[i] == if old(resources)[i].resourceType == income.resourceType
                                 then old(resources)[i].(income := income.value)
                                 else old(resources)[i]
    {
      if typeId !in buildings {
        return Error(BuildingNotFound);
      }
      var building := buildings[typeId];
      if building.level.None? {
        return Error(LevelMissing);
      }
      var produced := UpdateDetails(catalog, typeId, building.level.value, Produces);
      if produced.None? {
        return Success;
      }
      var income := produced.value.income;
      var at := FindRow(resources, income.resourceType);
      if at.None? {
        return Error(ResourceRowMissing);
      }
      ghost var before := resources;
      UpdateResources([ResourceUpdate(income.resourceType, resources[at.value].stored, income.value)]);
      forall i | 0 <= i < |resources| && before[i].resourceType == income.resourceType
        ensures resources[i] == before[i].(income := income.value)
      {
        FindRowUnique(before, income.resourceType, i);
      }
      return Success;
    }
  }

  /**
   * What an upgrade promises. It succeeds exactly when the building can be
   * afforded. Only a success changes the buildings, and it
   * raises the level by exactly one and sets the completion time to `now`
   * plus the build time of that next level; it pays exactly that level's
   * STONE and WOOD costs from the checkpointed rows, neither going negative.
   * A failure before the checkpoint changes nothing; a decline, or a
   * failure after it, leaves the rows only checkpointed.
   */
  lemma {:induction false} UpgradeMeaning(
    catalog: Catalog, typeId: int, now: int,
    before: seq<ResourceRow>, built: map<int, Building>,
    after: seq<ResourceRow>, rebuilt: map<int, Building>, outcome: Outcome)
    requires DistinctTypes(before)
    requires Upgraded(catalog, typeId, now, before, built, after, rebuilt, outcome)
    ensures outcome != Success ==> rebuilt == built
    ensures outcome == Error(BuildingNotFound) || outcome == Error(LevelMissing) || outcome == Error(CatalogEntryMissing) ==>
      after == before
    ensures outcome == Conflict || outcome == Error(ResourceRowMissing) || outcome == Error(CostMissing) ==>
      after == Checkpointed(before, now)
    ensures outcome == Success <==> Affordable(catalog, typeId, now, before, built)
    ensures outcome == Success ==> Committed(catalog, typeId, now, before, built, after, rebuilt)
  {
    if typeId in built && built[typeId].level.Some? {
      var next := built[typeId].level.value + 1;
      var costs := UpdateDetails(catalog, typeId, next, UpdateCosts);
      var duration := UpdateDetails(catalog, typeId, next, BuildingTime);
      if costs.Some? && duration.Some? {
        SettledMeaning(before, built, after, rebuilt, outcome, typeId, next, costs.value.costs, duration.value.seconds, now);
      }
    }
  }

  /**
   * What the steps after the lookups promise: a failure there is a missing
   * STONE or WOOD row or cost; anything but a success leaves the buildings
   * alone and the rows only checkpointed; a success pays exactly the STONE
   * and WOOD costs (neither row going negative) and gives the building level
   * `next`, completing `seconds` after `now`.
   */
  lemma {:induction false} SettledMeaning(
    before: seq<ResourceRow>, built: map<int, Building>,
    after: seq<ResourceRow>, rebuilt: map<int, Building>, outcome: Outcome,
    typeId: int, next: int, price: map<ResourceType, int>, seconds: int, now: int)
    requires DistinctTypes(before)
    requires Settled(before, built, after, rebuilt, outcome, typeId, next, price, seconds, now)
    ensures outcome.Error? ==> outcome.failure == ResourceRowMissing || outcome.failure == CostMissing
    ensures outcome != Success ==> rebuilt == built && after == Checkpointed(before, now)
    ensures outcome == Success ==>
      && Stone in price && Wood in price
      && PaidAt(before, after, price, now)
      && rebuilt == built[typeId := Building(Some(next), now + seconds)]
  {
    var rows := Checkpointed(before, now);
    var stoneAt, woodAt := FindRow(rows, Stone), FindRow(rows, Wood);
    if outcome == Success {
      CheckpointedKeepsDistinct(before, now);
      PaidFromCheckpoint(before, rows, after, stoneAt.value, woodAt.value, price, now);
    }
  }

  /**
   * The two updates of a successful upgrade, applied to rows checkpointed
   * at `now`, pay exactly the costs of STONE and WOOD.
   */
  lemma {:induction false} PaidFromCheckpoint(
    before: seq<ResourceRow>, rows: seq<ResourceRow>, after: seq<ResourceRow>,
    stoneAt: nat, woodAt: nat, costs: map<ResourceType, int>, now: int)
    requires DistinctTypes(rows)
    requires rows == Checkpointed(before, now)
    requires stoneAt < |rows| && rows[stoneAt].resourceType == Stone
    requires woodAt < |rows| && rows[woodAt].resourceType == Wood
    requires Stone in costs && Wood in costs
    requires RemainingAfter(rows[stoneAt], costs[Stone], now) >= 0.0
    requires RemainingAfter(rows[woodAt], costs[Wood], now) >= 0.0
    requires after == ApplyUpdates(rows, [
      ResourceUpdate(Stone, RemainingAfter(rows[stoneAt], costs[Stone], now).Floor, rows[stoneAt].income),
      ResourceUpdate(Wood, RemainingAfter(rows[woodAt], costs[Wood], now).Floor, rows[woodAt].income)])
    ensures PaidAt(before, after, costs, now)
  {
    PaymentFromCheckpoint(rows[stoneAt], costs[Stone], now);
    PaymentFromCheckpoint(rows[woodAt], costs[Wood], now);
    var updates := [
      ResourceUpdate(Stone, RemainingAfter(rows[stoneAt], costs[Stone], now).Floor, rows[stoneAt].income),
      ResourceUpdate(Wood, RemainingAfter(rows[woodAt], costs[Wood], now).Floor, rows[woodAt].income)];
    forall i | 0 <= i < |before|
      ensures var c := CheckpointRow(before[i], now);
              var t := before[i].resourceType;
              if t == Stone || t == Wood then
                after[i] == c.(stored := c.stored - costs[t]) && after[i].stored >= 0
              else
                after[i] == c
    {
      assert rows[i] == CheckpointRow(before[i], now);
      var t := before[i].resourceType;
      if t == Stone {
        assert i == stoneAt;
        assert UpdateFor(updates, Stone) == Some(updates[0]);
      } else if t == Wood {
        assert i == woodAt;
        assert UpdateFor(updates, Wood) == Some(updates[1]);
      } else {
        assert UpdateFor(updates, t) == None;
      }
    }
  }
}
