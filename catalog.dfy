/**
 * The building catalog: for each building type and level, what the level
 * costs, how long building it takes and what it produces. Every part of an
 * entry may be absent; the lookup reports an absent part as None.
 */
module Catalog {
  import opened Wrappers
  import opened Resources

  /** What a level produces: an hourly income of one kind of resource. */
  datatype Income = Income(resourceType: ResourceType, value: int)

  /**
   * One level of one building type. `updateCosts` maps each kind of resource
   * to the amount the level costs; `buildingTimeSeconds` is its build time.
   */
  datatype LevelSpec = LevelSpec(
    updateCosts: Option<map<ResourceType, int>>,
    buildingTimeSeconds: Option<int>,
    income: Option<Income>)

  /** The catalog, keyed by (building type id, level). */
  type Catalog = map<(int, int), LevelSpec>

  /** The three details a level can be asked for. */
  datatype DetailKind = UpdateCosts | BuildingTime | Produces

  /** A detail of a level, one variant per kind. */
  datatype Detail = Costs(costs: map<ResourceType, int>) | Seconds(seconds: int) | Production(income: Income)
  {
    function Kind(): DetailKind
    {
      match this
      case Costs(_) => UpdateCosts
      case Seconds(_) => BuildingTime
      case Production(_) => Produces
    }
  }

  /** The detail `kind` of an entry, if the entry has it. */
  function DetailOf(spec: LevelSpec, kind: DetailKind): Option<Detail>
  {
    match kind
    case UpdateCosts => if spec.updateCosts.Some? then Some(Costs(spec.updateCosts.value)) else None
    case BuildingTime => if spec.buildingTimeSeconds.Some? then Some(Seconds(spec.buildingTimeSeconds.value)) else None
    case Produces => if spec.income.Some? then Some(Production(spec.income.value)) else None
  }

  /**
   * The catalog lookup by building type, then level, then detail kind. A
   * missing building type, level or detail gives None; a detail found is the
   * one of that kind stored for exactly that type and level.
   */
  function UpdateDetails(catalog: Catalog, buildingTypeId: int, level: int, kind: DetailKind): (d: Option<Detail>)
    ensures (buildingTypeId, level) !in catalog ==> d.None?
    ensures d.Some? ==> d.value.Kind() == kind
    ensures d.Some? && kind == UpdateCosts ==> catalog[(buildingTypeId, level)].updateCosts == Some(d.value.costs)
    ensures d.Some? && kind == BuildingTime ==> catalog[(buildingTypeId, level)].buildingTimeSeconds == Some(d.value.seconds)
    ensures d.Some? && kind == Produces ==> catalog[(buildingTypeId, level)].income == Some(d.value.income)
    ensures (buildingTypeId, level) in catalog ==>
      var spec := catalog[(buildingTypeId, level)];
      (d.Some? <==> match kind
                    case UpdateCosts => spec.updateCosts.Some?
                    case BuildingTime => spec.buildingTimeSeconds.Some?
                    case Produces => spec.income.Some?)
  {
    if (buildingTypeId, level) in catalog then DetailOf(catalog[(buildingTypeId, level)], kind) else None
  }
}
