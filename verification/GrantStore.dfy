/** The grant store: reservation slots, the idempotency ledger and the lineage map. */
module GrantStore {
  import opened Wrappers

  datatype Slot = Slot(maxUses: int, uses: int, revoked: bool, reserved: bool)

  /** The store as a value. `outcomes` is the idempotency ledger; `lineage` maps a
      grant id to its parent, with None for a recorded root. */
  datatype Grants = Grants(
    slots: map<string, Slot>,
    outcomes: map<string, string>,
    lineage: map<string, Option<string>>)

  predicate Reserved(g: Grants, id: string) {
    id in g.slots && g.slots[id].reserved
  }

  predicate IsRevoked(g: Grants, id: string) {
    id in g.slots && g.slots[id].revoked
  }

  function Uses(g: Grants, id: string): int {
    if id in g.slots then g.slots[id].uses else 0
  }

  function SlotFor(g: Grants, id: string, maxUses: int): Slot {
    if id in g.slots then g.slots[id] else Slot(maxUses, 0, false, false)
  }

  predicate Available(s: Slot) {
    !s.revoked && !s.reserved && s.uses < s.maxUses
  }

  /** A first call creates the slot; the reservation is taken only when the slot is available. */
  function Reserve(g: Grants, id: string, maxUses: int): (Grants, bool) {
    var slot := SlotFor(g, id, maxUses);
    (g.(slots := g.slots[id := if Available(slot) then slot.(reserved := true) else slot]), Available(slot))
  }

  function Release(g: Grants, id: string): Grants {
    if id in g.slots then g.(slots := g.slots[id := g.slots[id].(reserved := false)]) else g
  }

  /** Fails without a held reservation; otherwise spends one use and records the outcome. */
  function Finalize(g: Grants, id: string, key: string, outcome: string): Option<Grants> {
    if !Reserved(g, id) then None
    else
      var slot := g.slots[id];
      Some(g.(slots := g.slots[id := slot.(uses := slot.uses + 1, reserved := false)],
              outcomes := g.outcomes[key := outcome]))
  }

  function Revoke(g: Grants, id: string): Grants {
    g.(slots := g.slots[id := SlotFor(g, id, 0).(revoked := true)])
  }

  /** A reservation is granted exactly when the grant is not revoked, not in flight and not used up; it
      is then held, and a revoked grant stays refused. */
  lemma ReserveExactly(g: Grants, id: string, maxUses: int)
    ensures var (h, granted) := Reserve(g, id, maxUses);
            && (granted <==>
                  && !IsRevoked(g, id) && !Reserved(g, id)
                  && Uses(g, id) < if id in g.slots then g.slots[id].maxUses else maxUses)
            && (Reserved(h, id) <==> granted || Reserved(g, id)) && Uses(h, id) == Uses(g, id)
            && IsRevoked(Revoke(g, id), id) && !Reserve(Revoke(g, id), id, maxUses).1
  {
  }

  /** Spending a use takes a held reservation, counts one use, ends the reservation and records the outcome
      of the key; giving it back ends the reservation alone. Neither touches another grant or key, and a
      revocation is never undone by them. */
  lemma FinalizeExactly(g: Grants, id: string, key: string, outcome: string, other: string)
    requires other != id
    ensures Finalize(g, id, key, outcome).Some? <==> Reserved(g, id)
    ensures forall h :: Finalize(g, id, key, outcome) == Some(h) ==>
              && Uses(h, id) == Uses(g, id) + 1 && !Reserved(h, id) && h.outcomes == g.outcomes[key := outcome]
              && (IsRevoked(h, id) <==> IsRevoked(g, id)) && h.lineage == g.lineage
              && Uses(h, other) == Uses(g, other) && (Reserved(h, other) <==> Reserved(g, other))
    ensures var h := Release(g, id);
            && Uses(h, id) == Uses(g, id) && !Reserved(h, id) && h.outcomes == g.outcomes
            && (IsRevoked(h, id) <==> IsRevoked(g, id)) && h.lineage == g.lineage
            && Uses(h, other) == Uses(g, other) && (Reserved(h, other) <==> Reserved(g, other))
    ensures var h := Revoke(g, id);
            && IsRevoked(h, id) && Uses(h, id) == Uses(g, id) && (Reserved(h, id) <==> Reserved(g, id))
            && (IsRevoked(h, other) <==> IsRevoked(g, other)) && h.outcomes == g.outcomes && h.lineage == g.lineage
  {
  }

  function RecordOutcome(g: Grants, key: string, outcome: string): Grants {
    g.(outcomes := g.outcomes[key := outcome])
  }

  function RecordLineage(g: Grants, id: string, parent: Option<string>): Grants {
    g.(lineage := g.lineage[id := parent])
  }
}
