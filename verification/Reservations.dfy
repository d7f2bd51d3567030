/** Shared reservation pools: concurrency units and spending below limits the coordinator owns. */
module Reservations {
  import opened Options

  datatype Row = Row(pool: string, operation: string, actor: string, installation: string,
                     units: int, spend: int, active: bool)

  datatype Limits = Limits(units: int, spend: int)

  /** The limits that a request expects, each of them optional. */
  datatype Requested = Requested(units: Option<int>, spend: Option<int>)

  predicate Expects(r: Requested, limits: Limits) {
    (r.units.Some? ==> r.units.value == limits.units) && (r.spend.Some? ==> r.spend.value == limits.spend)
  }

  /** The reservation rows in insertion order and the configured pools. */
  datatype Table = Table(rows: seq<Row>, pools: map<string, Limits>)

  datatype Outcome = Accepted(table: Table, active: bool) | Denied | Conflict

  function Units(row: Row, pool: string): int { if row.active && row.pool == pool then row.units else 0 }

  function Spend(row: Row, pool: string): int { if row.active && row.pool == pool then row.spend else 0 }

  function ActiveUnits(rows: seq<Row>, pool: string): int {
    if rows == [] then 0 else ActiveUnits(rows[..|rows|-1], pool) + Units(rows[|rows|-1], pool)
  }

  function ActiveSpend(rows: seq<Row>, pool: string): int {
    if rows == [] then 0 else ActiveSpend(rows[..|rows|-1], pool) + Spend(rows[|rows|-1], pool)
  }

  /** The row of this pool and operation id. */
  function Find(rows: seq<Row>, pool: string, operation: string): (i: Option<nat>)
    ensures i.Some? ==> i.value < |rows| && rows[i.value].pool == pool && rows[i.value].operation == operation
    ensures i.None? ==> forall k :: 0 <= k < |rows| ==> !(rows[k].pool == pool && rows[k].operation == operation)
  {
    if rows == [] then None
    else
      var last := |rows| - 1;
      if rows[last].pool == pool && rows[last].operation == operation then Some(last)
      else Find(rows[..last], pool, operation)
  }

  function SetPool(t: Table, administrator: bool, pool: string, units: int, spend: int): Outcome {
    if !administrator || pool == "" || units < 0 || spend < 0 then Denied
    else if ActiveUnits(t.rows, pool) > units || ActiveSpend(t.rows, pool) > spend then Conflict
    else Accepted(t.(pools := t.pools[pool := Limits(units, spend)]), true)
  }

  /** Replays the stored reservation, or adds one if the pool's limits allow it. */
  function Reserve(t: Table, pool: string, operation: string, actor: string, installation: string,
                   units: int, spend: int, requested: Requested): Outcome
  {
    if units < 0 || spend < 0 then Denied
    else
      var prior := Find(t.rows, pool, operation);
      if prior.Some? then
        var row := t.rows[prior.value];
        if row.actor != actor || row.installation != installation || row.units != units || row.spend != spend
        then Conflict else Accepted(t, row.active)
      else if pool !in t.pools then Conflict
      else if !Expects(requested, t.pools[pool]) then Conflict
      else if ActiveUnits(t.rows, pool) + units > t.pools[pool].units
           || ActiveSpend(t.rows, pool) + spend > t.pools[pool].spend then Conflict
      else Accepted(t.(rows := t.rows + [Row(pool, operation, actor, installation, units, spend, true)]), true)
  }

  function Release(t: Table, administrator: bool, actor: string, installation: string, pool: string,
                   operation: string): Outcome {
    var prior := Find(t.rows, pool, operation);
    if prior.None? then Conflict
    else if !administrator && (t.rows[prior.value].actor != actor || t.rows[prior.value].installation != installation)
    then Denied
    else Accepted(t.(rows := t.rows[prior.value := t.rows[prior.value].(active := false)]), false)
  }

  // ---- limits hold --------------------------------------------------------------------------

  /** Every pool's active reservations fit its limits, and none sits in an unconfigured pool. */
  ghost predicate WithinLimits(t: Table) {
    && (forall i :: 0 <= i < |t.rows| ==> t.rows[i].units >= 0 && t.rows[i].spend >= 0 && t.rows[i].pool in t.pools)
    && (forall pool :: pool in t.pools ==>
          ActiveUnits(t.rows, pool) <= t.pools[pool].units && ActiveSpend(t.rows, pool) <= t.pools[pool].spend)
    && (forall i, j :: 0 <= i < j < |t.rows| ==>
          t.rows[i].pool != t.rows[j].pool || t.rows[i].operation != t.rows[j].operation)
  }

  lemma {:induction false} ReleasedSum(rows: seq<Row>, i: nat, pool: string)
    requires i < |rows| && rows[i].units >= 0 && rows[i].spend >= 0
    ensures ActiveUnits(rows[i := rows[i].(active := false)], pool) == ActiveUnits(rows, pool) - Units(rows[i], pool)
    ensures ActiveSpend(rows[i := rows[i].(active := false)], pool) == ActiveSpend(rows, pool) - Spend(rows[i], pool)
  {
    var last := |rows| - 1;
    var after := rows[i := rows[i].(active := false)];
    if i == last {
      assert after[..last] == rows[..last];
    } else {
      assert after[..last] == rows[..last][i := rows[i].(active := false)];
      ReleasedSum(rows[..last], i, pool);
    }
  }

  lemma SetPoolKeepsLimits(t: Table, administrator: bool, pool: string, units: int, spend: int)
    requires WithinLimits(t) && SetPool(t, administrator, pool, units, spend).Accepted?
    ensures WithinLimits(SetPool(t, administrator, pool, units, spend).table)
  {
  }

  lemma ReserveKeepsLimits(t: Table, pool: string, operation: string, actor: string, installation: string,
                           units: int, spend: int, requested: Requested)
    requires WithinLimits(t) && Reserve(t, pool, operation, actor, installation, units, spend, requested).Accepted?
    ensures WithinLimits(Reserve(t, pool, operation, actor, installation, units, spend, requested).table)
  {
    var after := Reserve(t, pool, operation, actor, installation, units, spend, requested).table;
    if after != t {
      assert after.rows[..|t.rows|] == t.rows;
    }
  }

  lemma ReleaseKeepsLimits(t: Table, administrator: bool, actor: string, installation: string, pool: string,
                           operation: string)
    requires WithinLimits(t) && Release(t, administrator, actor, installation, pool, operation).Accepted?
    ensures WithinLimits(Release(t, administrator, actor, installation, pool, operation).table)
  {
    var i := Find(t.rows, pool, operation).value;
    forall p | p in t.pools
      ensures ActiveUnits(t.rows[i := t.rows[i].(active := false)], p) <= ActiveUnits(t.rows, p)
      ensures ActiveSpend(t.rows[i := t.rows[i].(active := false)], p) <= ActiveSpend(t.rows, p)
    {
      ReleasedSum(t.rows, i, p);
    }
  }

  /** A new reservation raises its pool's active sums by what it asks for and no other pool's, and a repeated one
      changes nothing. */
  lemma ReservedSum(t: Table, pool: string, operation: string, actor: string, installation: string,
                    units: int, spend: int, requested: Requested, other: string)
    requires Reserve(t, pool, operation, actor, installation, units, spend, requested).Accepted?
    ensures var after := Reserve(t, pool, operation, actor, installation, units, spend, requested).table;
            var added := Find(t.rows, pool, operation).None? && other == pool;
            && ActiveUnits(after.rows, other) == ActiveUnits(t.rows, other) + (if added then units else 0)
            && ActiveSpend(after.rows, other) == ActiveSpend(t.rows, other) + (if added then spend else 0)
            && after.pools == t.pools && t.rows <= after.rows
  {
    var after := Reserve(t, pool, operation, actor, installation, units, spend, requested).table;
    if after != t {
      assert after.rows[..|t.rows|] == t.rows;
    }
  }

  /** What fits is granted: a new reservation within what the limits leave is accepted and active, and after releasing
      it the pool's sums are what they were. */
  lemma FittingIsReserved(t: Table, pool: string, operation: string, actor: string, installation: string,
                          units: int, spend: int, requested: Requested)
    requires units >= 0 && spend >= 0 && Find(t.rows, pool, operation).None?
    requires pool in t.pools && Expects(requested, t.pools[pool])
    requires ActiveUnits(t.rows, pool) + units <= t.pools[pool].units
    requires ActiveSpend(t.rows, pool) + spend <= t.pools[pool].spend
    ensures var reserved := Reserve(t, pool, operation, actor, installation, units, spend, requested);
            && reserved.Accepted? && reserved.active
            && var released := Release(reserved.table, false, actor, installation, pool, operation);
               && released.Accepted? && !released.active
               && ActiveUnits(released.table.rows, pool) == ActiveUnits(t.rows, pool)
               && ActiveSpend(released.table.rows, pool) == ActiveSpend(t.rows, pool)
  {
    var reserved := Reserve(t, pool, operation, actor, installation, units, spend, requested).table;
    assert reserved.rows[..|t.rows|] == t.rows;
    ReleasedSum(reserved.rows, |t.rows|, pool);
  }

  /** A released reservation that is requested again stays released, and nothing else changes. */
  lemma ReplayNeverReactivates(t: Table, pool: string, operation: string, actor: string, installation: string,
                               units: int, spend: int, requested: Requested, i: nat)
    requires WithinLimits(t) && i < |t.rows|
    requires t.rows[i].pool == pool && t.rows[i].operation == operation && !t.rows[i].active
    ensures var r := Reserve(t, pool, operation, actor, installation, units, spend, requested);
            r.Accepted? ==> r.table == t && !r.active
  {
    var found := Find(t.rows, pool, operation);
    assert found.Some? && found.value == i;
  }
}
