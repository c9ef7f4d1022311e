/** The in-process store objects. Each method is one atomic step of its store. */
module Stores {
  import opened Wrappers
  import opened Lifecycle
  import GrantStore
  import Outbox

  class InMemoryLifecycleStore {
    var states: Lifecycle.Table

    constructor ()
      ensures states == map[]
    {
      states := map[];
    }

    method Get(id: string) returns (state: Option<State>)
      ensures state == if id in states then Some(states[id]) else None
    {
      if id in states {
        return Some(states[id]);
      }
      return None;
    }

    /** Succeeds exactly when the stored value is the expected one; None expects no row. */
    method CompareAndSet(id: string, expected: Option<State>, target: State) returns (ok: bool)
      modifies this
      ensures ok <==> expected == old(if id in states then Some(states[id]) else None)
      ensures states == if ok then old(states)[id := target] else old(states)
    {
      var current := Get(id);
      if current != expected {
        return false;
      }
      states := states[id := target];
      return true;
    }
  }

  class InMemoryGrantStore {
    var slots: map<string, GrantStore.Slot>
    var outcomes: map<string, string>
    var lineage: map<string, Option<string>>

    function View(): GrantStore.Grants
      reads this
    {
      GrantStore.Grants(slots, outcomes, lineage)
    }

    constructor ()
      ensures View() == GrantStore.Grants(map[], map[], map[])
    {
      slots, outcomes, lineage := map[], map[], map[];
    }

    method Reserve(id: string, maxUses: int) returns (ok: bool)
      modifies this`slots
      ensures (View(), ok) == GrantStore.Reserve(old(View()), id, maxUses)
    {
      var slot := if id in slots then slots[id] else GrantStore.Slot(maxUses, 0, false, false);
      if slot.revoked || slot.reserved || slot.uses >= slot.maxUses {
        slots := slots[id := slot];
        return false;
      }
      slots := slots[id := slot.(reserved := true)];
      return true;
    }

    method Release(id: string)
      modifies this`slots
      ensures View() == GrantStore.Release(old(View()), id)
    {
      if id in slots {
        slots := slots[id := slots[id].(reserved := false)];
      }
    }

    method Finalize(id: string, key: string, outcome: string) returns (ok: bool)
      modifies this`slots, this`outcomes
      ensures ok <==> GrantStore.Finalize(old(View()), id, key, outcome).Some?
      ensures View() == if ok then GrantStore.Finalize(old(View()), id, key, outcome).value else old(View())
    {
      if id !in slots || !slots[id].reserved {
        return false;
      }
      slots := slots[id := slots[id].(uses := slots[id].uses + 1, reserved := false)];
      outcomes := outcomes[key := outcome];
      return true;
    }

    method Revoke(id: string)
      modifies this`slots
      ensures View() == GrantStore.Revoke(old(View()), id)
    {
      var slot := if id in slots then slots[id] else GrantStore.Slot(0, 0, false, false);
      slots := slots[id := slot.(revoked := true)];
    }

    method RecordIdempotentOutcome(key: string, outcome: string)
      modifies this`outcomes
      ensures View() == GrantStore.RecordOutcome(old(View()), key, outcome)
    {
      outcomes := outcomes[key := outcome];
    }

    method RecordLineage(id: string, parent: Option<string>)
      modifies this`lineage
      ensures View() == GrantStore.RecordLineage(old(View()), id, parent)
    {
      lineage := lineage[id := parent];
    }
  }

  class InMemoryOutboxStore<M(==)> {
    var entries: Outbox.Table<M>

    constructor ()
      ensures entries == map[]
    {
      entries := map[];
    }

    method RecordPending(key: string, grantId: string, manifest: M) returns (ok: bool)
      modifies this
      ensures ok <==> Outbox.RecordPending(old(entries), key, grantId, manifest).Some?
      ensures entries == if ok then Outbox.RecordPending(old(entries), key, grantId, manifest).value else old(entries)
    {
      if key in entries {
        var existing := entries[key];
        return existing.grantId == grantId && existing.manifest == manifest && existing.status == Outbox.Pending;
      }
      entries := entries[key := Outbox.Entry(grantId, manifest, Outbox.Pending)];
      return true;
    }

    method MarkConfirmed(key: string) returns (ok: bool)
      modifies this
      ensures ok <==> Outbox.MarkConfirmed(old(entries), key).Some?
      ensures entries == if ok then Outbox.MarkConfirmed(old(entries), key).value else old(entries)
    {
      if key !in entries {
        return false;
      }
      if entries[key].status == Outbox.Confirmed {
        return true;
      }
      if entries[key].status != Outbox.Pending {
        return false;
      }
      entries := entries[key := entries[key].(status := Outbox.Confirmed)];
      return true;
    }

    method MarkAbandoned(key: string) returns (ok: bool)
      modifies this
      ensures ok <==> Outbox.MarkAbandoned(old(entries), key).Some?
      ensures entries == if ok then Outbox.MarkAbandoned(old(entries), key).value else old(entries)
    {
      if key !in entries {
        return false;
      }
      if entries[key].status == Outbox.Abandoned {
        return true;
      }
      if entries[key].status != Outbox.Pending {
        return false;
      }
      entries := entries[key := entries[key].(status := Outbox.Abandoned)];
      return true;
    }
  }
}
