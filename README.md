# Building upgrades and resource accrual of theGame

This project models the core of the game server's `BuildingService`: the
transaction that upgrades a village's building by one level, the accrual
rule that tells how much of a resource a village holds at a given instant,
the lookup of a level's costs, build time and income in the building
catalog, and the operation that gives a resource the income of a building's
current level.

A village's resources are rows (kind, stored amount, update time, hourly
income). Between checkpoints a row's amount is its stored amount plus
income/3600 for every whole second since its update time. An upgrade of a
building at level `L` looks up the costs and build time of level `L + 1`,
checkpoints every resource row at `now`, takes the first STONE row and the
first WOOD row, and pays the two costs only if both rows cover them (what is
left may be exactly zero). On payment both rows are written back with what
is left, the building gets level `L + 1`, and its completion time becomes
`now` plus the build time. Otherwise the answer is a conflict, and only the
checkpoint has happened.

Modules:

- `Wrappers` (`wrappers.dfy`): `Option`.
- `Resources` (`resources.dfy`): resource rows, the accrual rule, the
  remaining amount after a cost, and the checkpoint of one row.
- `Ledger` (`ledger.dfy`): the list of a village's rows. It has the
  checkpoint of all rows, the search for the first row of a kind, and the
  bulk update of amounts and incomes.
- `Catalog` (`catalog.dfy`): the catalog as a map from (building type,
  level) to a level record whose parts may each be absent, and the lookup
  by detail kind.
- `BuildingService` (`building_service.dfy`): the class `Village`. Its
  fields are the building rows and the resource rows. Its methods `Upgrade`
  and `ApplyIncome` change them in place.
- `Scenarios` (`scenarios.dfy`): concrete upgrades and income changes. Each
  outcome is derived from the contracts alone.

Time is whole seconds. The clock and the catalog are parameters. The two
clock reads of the source (the completion time at line 59 and the accrual at
line 81) are one instant `now`.

Choices where the behaviour depends on code outside this file:

- The stored amount is a whole number. The same slot of the resource update
  request receives a `Long` at line 50 and the stored amount at line 99.
  The checkpoint performed by the resource service (line 40) is therefore
  modelled as storing the accrued amount rounded down to a whole number
  (for a non-negative amount, the same as Kotlin's `toLong()`). The
  update time becomes `now` and the income is kept. `CheckpointKeepsAccrual`
  proves that this loses less than one unit at any later instant.
- The bulk update of the resource service (lines 53 and 101) gives every
  row of a named kind the amount and income of the last entry naming that
  kind. It keeps the row's update time.
- A village is assumed to hold at most one row per kind of resource. The
  code does not enforce this: `first` at lines 44-45 and 98 accepts
  duplicates. The model states it as the invariant `Village.Valid`, every
  method requires it, and every method keeps it.

Facts about the code that the model keeps:

- The accrual at lines 80-87 does not check that `now` is at or after the
  update time. An earlier `now` gives the accrual of a negative number of
  seconds.
- Lines 47-49 read only the STONE and WOOD costs. A cost the catalog lists
  for any other resource is ignored and not paid.
- Line 103 catches only `JSONException`. Every catalog problem for the
  income is a silent no-op, including a malformed entry. A missing building,
  a null level or a missing resource row is not caught and fails the
  operation.
- Lines 97-101 change a row's income without a checkpoint first. The row
  keeps its stored amount and update time, so the new rate also counts the
  time since the row's last update, back to before the change.

## Model

| member | source | states |
|---|---|---|
| `Resources.AmountAt` | src/main/java/com/thegame/business/service/BuildingService.kt:80-84 | The amount equals the stored amount at the update time. It never changes without income. It is at least the stored amount when the income is non-negative and time has not gone backwards. |
| `Resources.RemainingAfter` | src/main/java/com/thegame/business/service/BuildingService.kt:80-87 | What is left plus the cost is the accrued amount. What is left is non-negative iff the accrued amount covers the cost. On a row updated at `now` it is stored minus cost exactly. |
| `Resources.AmountMonotone` | src/main/java/com/thegame/business/service/BuildingService.kt:80-87 | With a non-negative income, the accrued amount never decreases as the evaluation instant grows. |
| `Resources.AmountSplit` | src/main/java/com/thegame/business/service/BuildingService.kt:82-84 | Accrual up to a later instant equals accrual up to an earlier one plus the income of the seconds in between. |
| `Resources.CheckpointRow` | src/main/java/com/thegame/business/service/BuildingService.kt:39-40 | A checkpoint keeps kind and income and sets the update time to `now`. The new stored amount is the accrued amount rounded down to a whole number. |
| `Resources.CheckpointKeepsAccrual` | src/main/java/com/thegame/business/service/BuildingService.kt:39-40 | At every later instant, a checkpointed row is worth at most the original row and less than one unit less. |
| `Resources.CheckpointIdempotent` | src/main/java/com/thegame/business/service/BuildingService.kt:39-40 | Checkpointing a row twice at the same instant gives the same row as checkpointing it once. |
| `Resources.CheckpointNeverLoses` | src/main/java/com/thegame/business/service/BuildingService.kt:39-40 | With a non-negative income and time not gone backwards, a checkpoint never lowers the stored amount. |
| `Resources.PaymentFromCheckpoint` | src/main/java/com/thegame/business/service/BuildingService.kt:47-50 | On a row checkpointed at `now` with an allowed payment, rounding the remainder down to a whole number gives exactly stored minus cost, and that is non-negative. |
| `Ledger.Checkpointed` | src/main/java/com/thegame/business/service/BuildingService.kt:39-40 | Checkpointing all rows keeps their number, order, kinds and incomes. Every update time becomes `now`. Every stored amount becomes the row's accrued amount rounded down to a whole number. |
| `Ledger.CheckpointedKeepsDistinct` | src/main/java/com/thegame/business/service/BuildingService.kt:39-40 | The checkpoint keeps the resource kinds of a village distinct. |
| `Ledger.CheckpointedIdempotent` | src/main/java/com/thegame/business/service/BuildingService.kt:39-43 | Checkpointing all rows twice at the same instant is the same as checkpointing once. Reading right after the checkpoint (line 43) sees settled rows. |
| `Ledger.FindRow` | src/main/java/com/thegame/business/service/BuildingService.kt:44-45 | The index found holds a row of the kind and no earlier row has that kind. None is returned iff no row has the kind. |
| `Ledger.FindRowUnique` | src/main/java/com/thegame/business/service/BuildingService.kt:44-45 | When kinds are distinct, the row found is the only row of that kind. |
| `Ledger.UpdateFor` | src/main/java/com/thegame/business/service/BuildingService.kt:52-53 | The entry found names the kind and is the last entry of the request naming it: no later entry names the kind. None is returned iff no entry names the kind. |
| `Ledger.Rewrite` | src/main/java/com/thegame/business/service/BuildingService.kt:53 | One update entry keeps the number of rows, every row's kind and every update time. Rows of the entry's kind take its amount and income, and those rows only: every other row stays as it was. |
| `Ledger.RewriteAbsentKind` | src/main/java/com/thegame/business/service/BuildingService.kt:53 | An entry for a kind the village has no row of leaves the rows unchanged. |
| `Ledger.ApplyUpdates` | src/main/java/com/thegame/business/service/BuildingService.kt:50-53 | After the bulk update, each row has the values of the last entry naming its kind. Rows of unnamed kinds and all update times are unchanged. |
| `Ledger.ApplyUpdatesAbsentKinds` | src/main/java/com/thegame/business/service/BuildingService.kt:50-53 | A request that names none of the village's kinds leaves the rows unchanged. |
| `Ledger.ApplyUpdatesKeepsDistinct` | src/main/java/com/thegame/business/service/BuildingService.kt:53 | The bulk update keeps the resource kinds of a village distinct. |
| `Catalog.UpdateDetails` | src/main/java/com/thegame/business/service/BuildingService.kt:70-77 | A missing building type, level or detail gives None. A found detail has the requested kind and is the one stored for exactly that type and level. |
| `BuildingService.Village.AggregateAndUpdate` | src/main/java/com/thegame/business/service/BuildingService.kt:39-40 | The rows become their checkpoint at `now`. Buildings are unchanged. |
| `BuildingService.Village.UpdateResources` | src/main/java/com/thegame/business/service/BuildingService.kt:52-53 | The rows become the bulk update of the old rows. Buildings are unchanged. |
| `BuildingService.Village.Upgrade` | src/main/java/com/thegame/business/service/BuildingService.kt:32-68 | The new state is given case by case. A missing building, a null level, or a missing cost or build time of level+1 fails with nothing changed. A missing STONE/WOOD row or cost, or a decline, leaves the rows only checkpointed. It succeeds iff the building has a level, level+1 has costs and a build time, both rows exist, the costs name both, and each checkpointed row holds at least its cost. On success the level becomes exactly old+1, the completion time becomes now + the build time of level+1, and STONE and WOOD become checkpointed minus cost (never negative). Incomes are kept and all other rows are only checkpointed. Only a success changes the buildings. |
| `BuildingService.Village.Settle` | src/main/java/com/thegame/business/service/BuildingService.kt:39-67 | The steps after the lookups: checkpoint, find the STONE and WOOD rows, read both costs, and pay both only if both remainders are >= 0, giving the building the next level and completion time. Anything else leaves the buildings alone and the rows only checkpointed. |
| `BuildingService.UpgradeMeaning` | src/main/java/com/thegame/business/service/BuildingService.kt:32-68 | From the case-by-case outcome of an upgrade: a success happens iff the upgrade is affordable, and it pays exactly the STONE and WOOD costs of level+1 and sets level and completion time. Failures before the checkpoint change nothing, later failures and declines only checkpoint, and no failure touches the buildings. |
| `BuildingService.SettledMeaning` | src/main/java/com/thegame/business/service/BuildingService.kt:39-67 | After the lookups, a failure is a missing STONE/WOOD row or cost. Anything but a success only checkpoints. A success had both costs, paid exactly them with no row going negative, and gave the building the next level. |
| `BuildingService.Village.ApplyIncome` | src/main/java/com/thegame/business/service/BuildingService.kt:90-106 | Buildings never change. The income of the current level (no +1) is looked up. If it is missing: success, nothing changed. If it is present: the produced kind's income becomes the level's value, and every stored amount and update time is kept, with no checkpoint first, so the new rate counts from the row's last update. A missing building, a null level or a missing row is an error with nothing changed. |
| `BuildingService.PaidFromCheckpoint` | src/main/java/com/thegame/business/service/BuildingService.kt:47-53 | The two updates of a successful upgrade, applied to the checkpointed rows, pay exactly the STONE and WOOD costs. No row goes negative. All other rows are only checkpointed. |
| `Scenarios.DeclinedForLackOfWood` | src/main/java/com/thegame/business/service/BuildingService.kt:49-67 | STONE 100 and WOOD 50 against a cost of 80/60: Conflict. The rows stay 100/50 and the level is unchanged. |
| `Scenarios.UpgradedWithChange` | src/main/java/com/thegame/business/service/BuildingService.kt:49-63 | Cost 80/40: Success. The rows become 20/10, the level goes 1 to 2, and completion is 1000 + 600. |
| `Scenarios.UpgradedWithExactAmounts` | src/main/java/com/thegame/business/service/BuildingService.kt:49 | Remaining exactly zero of both still commits. |
| `Scenarios.IncomeCountedBeforePaying` | src/main/java/com/thegame/business/service/BuildingService.kt:39-49 | STONE 50 earning 3600/h, last updated 30 s ago, is checkpointed to 80 and pays a cost of 80. |
| `Scenarios.LastLevelLeavesRowsAlone` | src/main/java/com/thegame/business/service/BuildingService.kt:34-40 | With no next level in the catalog, the upgrade fails before the checkpoint, so the rows keep their unsettled amounts. |
| `Scenarios.NoIncomeIsNoChange` | src/main/java/com/thegame/business/service/BuildingService.kt:92-105 | A level without an income entry: success and identical rows. |
| `Scenarios.IncomeReplacesRate` | src/main/java/com/thegame/business/service/BuildingService.kt:93-101 | A level producing 90 WOOD/h: WOOD's income becomes 90 and its stored amount and update time are kept. |
| `Scenarios.NewRateCountsBackwards` | src/main/java/com/thegame/business/service/BuildingService.kt:97-101 | WOOD holding 50 since t = 0 without income is given 3600/h: at t = 1000 it is worth 1050 instead of 50, since no checkpoint precedes the rate change. |

## Left out

- `getBuildingsByVillageId` (lines 21-23) passes straight through to the repository and holds no logic.
- HTTP responses (lines 63 and 66) are the `Outcome` datatype: `Success`, `Conflict` and `Error`. The failures are distinguished by `Failure`, where the source throws exceptions.
- The file read and JSON parsing of the catalog (lines 71-72) are an in-memory map. A building-time object without `seconds`, or an income object without `resourceTypeId` or `value`, is the same as an absent detail. A number stored as a non-number is left out.
- The repositories and the resource service are state of `Village`: the building save at line 60 and the resource calls at lines 39-40, 43, 53 and 97-101. Their code is not part of this model, and their assumed behaviour is described above.
- `Village.ApplyIncome`: no checkpoint happens before the income changes (lines 97-101), so the new rate applies from the row's last update time rather than from the moment of the change; the model keeps this behaviour of the code and does not give a going-forward rate (see `Scenarios.NewRateCountsBackwards`).
- `Resources.AmountAt`: the source computes with 32-bit `Float`. The model uses exact reals. 32-bit `Int` overflow of the level and 64-bit `Long` overflow of costs, incomes and times are not modelled.
- `Resources.AmountAt`: instants are whole seconds. The model does not cover the sub-second part of `LocalDateTime` that `Duration.between(...).seconds` drops at line 82.
- `Village.Valid`: the one-row-per-kind invariant is an assumption about the resource table, whose repository is not part of this model; the code itself tolerates duplicate rows and uses the first one (lines 44-45 and 98), and the model does not cover a village with duplicates.
- A null stored amount (the `?.` and `!!` at lines 84-86) is not modelled. The checkpoint writes every row just before the amounts are read.
- The second lookup of the building at line 56 and its null check at line 57 are not modelled separately. In a sequential model the building read at line 34 is still there.
- The message printed at line 104 is not modelled.
- Concurrent upgrades of the same village are not modelled. The sequential model runs one operation at a time.
