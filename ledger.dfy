/**
 * The resource rows of one village as the resource service hands them out
 * (a list), and the three things the building service does with that list:
 * checkpoint every row, pick the first row of a kind, and write updates back.
 */
module Ledger {
  import opened Wrappers
  import opened Resources

  /** No two rows of the village hold the same kind of resource. */
  ghost predicate DistinctTypes(rows: seq<ResourceRow>)
  {
    forall i, j :: 0 <= i < j < |rows| ==> rows[i].resourceType != rows[j].resourceType
  }

  /**
   * The aggregate-and-update step of the resource service: every row is
   * checkpointed at `now`, in place and in order.
   */
  function Checkpointed(rows: seq<ResourceRow>, now: int): (cp: seq<ResourceRow>)
    ensures |cp| == |rows|
    ensures forall i :: 0 <= i < |rows| ==>
      && cp[i].resourceType == rows[i].resourceType
      && cp[i].income == rows[i].income
      && cp[i].updateTime == now
      && cp[i].stored as real <= AmountAt(rows[i], now) < cp[i].stored as real + 1.0
  {
    seq(|rows|, i requires 0 <= i < |rows| => CheckpointRow(rows[i], now))
  }

  /** Checkpointing keeps the kinds of the rows, so it keeps them distinct. */
  lemma CheckpointedKeepsDistinct(rows: seq<ResourceRow>, now: int)
    requires DistinctTypes(rows)
    ensures DistinctTypes(Checkpointed(rows, now))
  {
  }

  /** Checkpointing twice at the same instant is the same as checkpointing once. */
  lemma {:induction false} CheckpointedIdempotent(rows: seq<ResourceRow>, now: int)
    ensures Checkpointed(Checkpointed(rows, now), now) == Checkpointed(rows, now)
  {
  }

  /** The index of the first row of kind `t`, or None when the village has no such row. */
  function FindRow(rows: seq<ResourceRow>, t: ResourceType): (at: Option<nat>)
    ensures at.Some? ==> at.value < |rows| && rows[at.value].resourceType == t
    ensures at.Some? ==> forall j :: 0 <= j < at.value ==> rows[j].resourceType != t
    ensures at.None? <==> forall j :: 0 <= j < |rows| ==> rows[j].resourceType != t
    decreases |rows|
  {
    if |rows| == 0 then None
    else if rows[0].resourceType == t then Some(0)
    else match FindRow(rows[1..], t)
      case None => None
      case Some(k) => Some(k + 1)
  }

  /** Among rows of distinct kinds, the row found for `t` is the only row of kind `t`. */
  lemma FindRowUnique(rows: seq<ResourceRow>, t: ResourceType, j: int)
    requires DistinctTypes(rows)
    requires FindRow(rows, t).Some?
    requires 0 <= j < |rows| && rows[j].resourceType == t
    ensures j == FindRow(rows, t).value
  {
  }

  /** One entry of an update request: the new amount and the new income of one kind of resource. */
  datatype ResourceUpdate = ResourceUpdate(resourceType: ResourceType, amount: int, income: int)

  /** The last entry of `updates` that names kind `t`, if any. */
  function UpdateFor(updates: seq<ResourceUpdate>, t: ResourceType): (u: Option<ResourceUpdate>)
    ensures u.Some? ==> u.value.resourceType == t
    ensures u.Some? ==> exists k :: 0 <= k < |updates| && updates[k] == u.value &&
                          forall m :: k < m < |updates| ==> updates[m].resourceType != t
    ensures u.None? <==> forall k :: 0 <= k < |updates| ==> updates[k].resourceType != t
    decreases |updates|
  {
    if |updates| == 0 then None
    else if updates[|updates| - 1].resourceType == t then Some(updates[|updates| - 1])
    else
      var earlier := updates[..|updates| - 1];
      var u := UpdateFor(earlier, t);
      assert u.Some? ==> exists k :: 0 <= k < |earlier| && earlier[k] == u.value &&
                           forall m :: k < m < |updates| ==> updates[m].resourceType != t;
      u
  }

  /** A row after an update entry (or none) for its kind: amount and income replaced, update time kept. */
  function Updated(row: ResourceRow, u: Option<ResourceUpdate>): ResourceRow
  {
    match u
    case None => row
    case Some(v) => row.(stored := v.amount, income := v.income)
  }

  /** Every row of kind `u.resourceType` takes the amount and income of `u`; the other rows are untouched. */
  function Rewrite(rows: seq<ResourceRow>, u: ResourceUpdate): (r: seq<ResourceRow>)
    ensures |r| == |rows|
    ensures forall i :: 0 <= i < |rows| ==>
      r[i].resourceType == rows[i].resourceType && r[i].updateTime == rows[i].updateTime
    ensures forall i :: 0 <= i < |rows| && rows[i].resourceType == u.resourceType ==>
      r[i].stored == u.amount && r[i].income == u.income
    ensures forall i :: 0 <= i < |rows| && rows[i].resourceType != u.resourceType ==> r[i] == rows[i]
  {
    seq(|rows|, i requires 0 <= i < |rows| =>
      if rows[i].resourceType == u.resourceType then rows[i].(stored := u.amount, income := u.income) else rows[i])
  }

  /** An entry for a kind that no row holds leaves the rows as they were. */
  lemma {:induction false} RewriteAbsentKind(rows: seq<ResourceRow>, u: ResourceUpdate)
    requires forall i :: 0 <= i < |rows| ==> rows[i].resourceType != u.resourceType
    ensures Rewrite(rows, u) == rows
  {
    var r := Rewrite(rows, u);
    assert forall i :: 0 <= i < |rows| ==> r[i] == rows[i];
  }

  /** A request that names none of the village's kinds leaves the rows as they were. */
  lemma {:induction false} ApplyUpdatesAbsentKinds(rows: seq<ResourceRow>, updates: seq<ResourceUpdate>)
    requires forall i, k :: 0 <= i < |rows| && 0 <= k < |updates| ==> rows[i].resourceType != updates[k].resourceType
    ensures ApplyUpdates(rows, updates) == rows
  {
    var r := ApplyUpdates(rows, updates);
    forall i | 0 <= i < |rows|
      ensures r[i] == rows[i]
    {
      assert UpdateFor(updates, rows[i].resourceType).None?;
    }
  }

  /**
   * The bulk update of the resource service: the entries are applied in
   * order, so each row ends with the values of the last entry naming its
   * kind, and rows whose kind no entry names are left as they were.
   */
  function ApplyUpdates(rows: seq<ResourceRow>, updates: seq<ResourceUpdate>): (r: seq<ResourceRow>)
    ensures |r| == |rows|
    ensures forall i :: 0 <= i < |rows| ==> r[i] == Updated(rows[i], UpdateFor(updates, rows[i].resourceType))
    decreases |updates|
  {
    if |updates| == 0 then rows
    else Rewrite(ApplyUpdates(rows, updates[..|updates| - 1]), updates[|updates| - 1])
  }

  /** An update keeps the kinds of the rows, so it keeps them distinct. */
  lemma ApplyUpdatesKeepsDistinct(rows: seq<ResourceRow>, updates: seq<ResourceUpdate>)
    requires DistinctTypes(rows)
    ensures DistinctTypes(ApplyUpdates(rows, updates))
  {
  }
}
