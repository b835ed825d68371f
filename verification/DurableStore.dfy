/**
 The durable order table (packages/common/durable_store.py): one row per order, inserted
 once, never deleted.
 */
module DurableStore {
  import opened OrderStates

  datatype Row<S> = Row(snapshot: S, state: OrderState)

  /** Rows only ever appear and change state; what was written at the insert stays. */
  ghost predicate Extends<S>(now: map<string, Row<S>>, before: map<string, Row<S>>) {
    forall id :: id in before ==> id in now && now[id].snapshot == before[id].snapshot
  }

  class DurableOrderStore<S> {
    var rows: map<string, Row<S>>

    constructor ()
      ensures rows == map[]
    {
      rows := map[];
    }

    /** Insert only: false is the unique-key violation, and nothing is written. */
    method RecordSubmission(id: string, snapshot: S, state: OrderState) returns (ok: bool)
      modifies this
      ensures ok <==> id !in old(rows)
      ensures rows == if ok then old(rows)[id := Row(snapshot, state)] else old(rows)
      ensures Extends(rows, old(rows))
    {
      if id in rows {
        return false;
      }
      rows := rows[id := Row(snapshot, state)];
      ok := true;
    }

    /** False when no row was changed. */
    method UpdateState(id: string, state: OrderState) returns (ok: bool)
      modifies this
      ensures ok <==> id in old(rows)
      ensures rows == if ok then old(rows)[id := old(rows)[id].(state := state)] else old(rows)
      ensures Extends(rows, old(rows))
    {
      if id !in rows {
        return false;
      }
      rows := rows[id := rows[id].(state := state)];
      ok := true;
    }

    predicate IsKnown(id: string)
      reads this
    {
      id in rows
    }
  }
}
