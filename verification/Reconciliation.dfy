/** The reconciliation engine over its two stores. */
module Reconciliation {
  import opened Domain
  import opened PositionMath
  import opened Ledgers

  class PositionStore {
    var rows: map<Key, Position>

    constructor ()
      ensures rows == map[]
    {
      rows := map[];
    }

    method Get(k: Key) returns (row: Option<Position>)
      ensures row == if k in rows then Some(rows[k]) else None
    {
      if k in rows {
        row := Some(rows[k]);
      } else {
        row := None;
      }
    }

    method Upsert(k: Key, row: Position)
      modifies this
      ensures rows == old(rows)[k := row]
    {
      rows := rows[k := row];
    }
  }

  class BalanceStore {
    const opening: real
    var rows: map<Id, real>

    constructor (opening: real)
      ensures rows == map[] && this.opening == opening
    {
      this.opening := opening;
      rows := map[];
    }

    method Get(u: Id) returns (balance: real)
      ensures balance == if u in rows then rows[u] else opening
    {
      if u in rows {
        balance := rows[u];
      } else {
        balance := opening;
      }
    }

    method Upsert(u: Id, balance: real)
      modifies this
      ensures rows == old(rows)[u := balance]
    {
      rows := rows[u := balance];
    }
  }

  class ReconciliationEngine {
    const positions: PositionStore
    const balances: BalanceStore

    constructor (positions: PositionStore, balances: BalanceStore)
      ensures this.positions == positions && this.balances == balances
    {
      this.positions := positions;
      this.balances := balances;
    }

    ghost function Contents(): Ledger
      reads positions, balances
    {
      Ledger(positions.rows, balances.rows, balances.opening)
    }

    /** Reconcile one fill: two reads and two writes, or an error and neither write. */
    method Apply(fill: Fill) returns (r: Result<(), ValueError>)
      modifies positions, balances
      ensures r.Failure? <==> fill.size <= 0.0
      ensures Contents() == ApplyFill(old(Contents()), fill)
    {
      var key := Key(fill.userId, fill.marketId, fill.tokenId);
      var row := positions.Get(key);
      var prior := if row.Some? then row.value else FLAT;
      var outcome := ApplyFillToPosition(prior.size, prior.averageCost, fill.side, fill.size, fill.price);
      if outcome.Failure? {
        return Failure(outcome.error);
      }
      var update := outcome.value;
      var realized := prior.realizedPnl + update.realizedPnlDelta;
      positions.Upsert(key, Position(update.newSize, update.newAverageCost, realized));

      var priorBalance := balances.Get(fill.userId);
      var newBalance := ApplyFillToBalance(priorBalance, fill.side, fill.size, fill.price, fill.fee);
      balances.Upsert(fill.userId, newBalance);
      r := Success(());
    }
  }
}
