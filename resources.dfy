/**
 * One resource row of a village and the accrual rule applied to it:
 * a row holds the amount checkpointed at its update time, and between
 * checkpoints the amount grows by income/3600 per whole elapsed second.
 */
module Resources {

  /**
   * The kinds of resource. The upgrade path names STONE and WOOD; every other
   * kind is carried by its id, and `Other` never carries the id of STONE or
   * WOOD, so equal kinds are exactly equal ids.
   */
  datatype ResourceType = Stone | Wood | Other(id: int)

  /**
   * A stored resource row: `stored` whole units as of `updateTime`
   * (instants are whole seconds), produced at `income` units per hour.
   */
  datatype ResourceRow = ResourceRow(resourceType: ResourceType, stored: int, updateTime: int, income: int)

  /** Income per second, the hourly income divided by 3600. */
  function RatePerSecond(r: ResourceRow): real
  {
    r.income as real / 3600.0
  }

  /** The amount of `r` at instant `now`: the stored amount plus the income earned since the update time. */
  function AmountAt(r: ResourceRow, now: int): (a: real)
    ensures now == r.updateTime ==> a == r.stored as real
    ensures r.income == 0 ==> a == r.stored as real
    ensures r.income >= 0 && r.updateTime <= now ==> a >= r.stored as real
  {
    r.stored as real + RatePerSecond(r) * (now - r.updateTime) as real
  }

  /**
   * What is left of `r` at `now` once `cost` units are paid; negative when
   * the row cannot pay. No check that `now` is not before the update time.
   */
  function RemainingAfter(r: ResourceRow, cost: int, now: int): (rem: real)
    ensures rem + cost as real == AmountAt(r, now)
    ensures rem >= 0.0 <==> AmountAt(r, now) >= cost as real
    ensures r.updateTime == now ==> rem == (r.stored - cost) as real
  {
    AmountAt(r, now) - cost as real
  }

  /** With a non-negative income the amount never decreases as time goes on. */
  lemma {:induction false} AmountMonotone(r: ResourceRow, earlier: int, later: int)
    requires r.income >= 0
    requires earlier <= later
    ensures AmountAt(r, earlier) <= AmountAt(r, later)
  {
    var rate := RatePerSecond(r);
    assert rate >= 0.0;
    var d1, d2 := (earlier - r.updateTime) as real, (later - r.updateTime) as real;
    assert rate * d2 == rate * d1 + rate * (d2 - d1);
    assert rate * (d2 - d1) >= 0.0;
  }

  /** Accrual up to `later` is accrual up to `t` plus the income earned from `t` to `later`. */
  lemma {:induction false} AmountSplit(r: ResourceRow, t: int, later: int)
    ensures AmountAt(r, later) == AmountAt(r, t) + RatePerSecond(r) * (later - t) as real
  {
  }

  /**
   * The row after a checkpoint at `now`: the accrued amount is rolled into
   * the stored amount (rounded down to whole units) and the update time
   * becomes `now`; kind and income are kept.
   */
  function CheckpointRow(r: ResourceRow, now: int): (c: ResourceRow)
    ensures c.resourceType == r.resourceType && c.income == r.income && c.updateTime == now
    ensures c.stored as real <= AmountAt(r, now) < c.stored as real + 1.0
  {
    r.(stored := AmountAt(r, now).Floor, updateTime := now)
  }

  /**
   * A checkpoint does not change what the row is worth later, except for the
   * fraction of a unit it drops: at every later instant the checkpointed row
   * is worth at most, and less than one unit below, the original.
   */
  lemma {:induction false} CheckpointKeepsAccrual(r: ResourceRow, t: int, later: int)
    ensures AmountAt(CheckpointRow(r, t), later) <= AmountAt(r, later)
    ensures AmountAt(r, later) < AmountAt(CheckpointRow(r, t), later) + 1.0
  {
  }

  /** Checkpointing twice at the same instant is the same as checkpointing once. */
  lemma {:induction false} CheckpointIdempotent(r: ResourceRow, now: int)
    ensures CheckpointRow(CheckpointRow(r, now), now) == CheckpointRow(r, now)
  {
  }

  /** With a non-negative income and a checkpoint not before the update time, the stored amount never goes down. */
  lemma {:induction false} CheckpointNeverLoses(r: ResourceRow, now: int)
    requires r.income >= 0
    requires r.updateTime <= now
    ensures CheckpointRow(r, now).stored >= r.stored
  {
  }

  /**
   * Paying from a row checkpointed at `now`: what is left is a whole number,
   * so rounding it down to a whole number drops nothing, and it is never negative
   * when the payment is allowed.
   */
  lemma {:induction false} PaymentFromCheckpoint(r: ResourceRow, cost: int, now: int)
    requires r.updateTime == now
    requires RemainingAfter(r, cost, now) >= 0.0
    ensures RemainingAfter(r, cost, now).Floor == r.stored - cost >= 0
  {
  }
}
