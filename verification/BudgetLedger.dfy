/** The in-process budget ledger object. */
module BudgetLedger {
  import opened Wrappers
  import Budget

  /** The in-process ledger. Its lock makes every method one atomic step. */
  class InMemoryBudgetLedger {
    var budgets: map<string, Budget.AuthorityBudget>
    var consumed: map<string, int>
    var reserved: map<string, int>

    ghost function View(): Budget.Ledger
      reads this
    {
      Budget.Ledger(budgets, consumed, reserved)
    }

    ghost predicate Valid()
      reads this
    {
      Budget.Sound(View())
    }

    constructor ()
      ensures Valid() && View() == Budget.EmptyLedger
    {
      budgets, consumed, reserved := map[], map[], map[];
    }

    method Register(budget: Budget.AuthorityBudget) returns (r: Option<Budget.Error>)
      requires Valid() && budget.Limit() >= 1
      modifies this
      ensures Valid()
      ensures r.None? <==> Budget.Register(old(View()), budget).Ok?
      ensures View() == if r.None? then Budget.Register(old(View()), budget).value else old(View())
    {
      if budget.id in budgets && budgets[budget.id] != budget {
        return Some(Budget.ConflictingDefinition);
      }
      budgets := budgets[budget.id := budget];
      if budget.id !in consumed {
        consumed := consumed[budget.id := 0];
      }
      if budget.id !in reserved {
        reserved := reserved[budget.id := 0];
      }
      return None;
    }

    method Reserve(id: string, amount: int) returns (r: Result<bool, Budget.Error>)
      requires Valid()
      modifies this`reserved
      ensures Valid()
      ensures r.Ok? <==> Budget.Reserve(old(View()), id, amount).Ok?
      ensures r.Ok? ==> Budget.Reserve(old(View()), id, amount) == Ok((View(), r.value))
      ensures r.Err? || !r.value ==> View() == old(View())
      ensures r == Ok(true) ==> View().reserved[id] == old(reserved[id]) + amount
    {
      if amount < 1 {
        return Err(Budget.BadAmount);
      }
      if id !in budgets {
        return Err(Budget.UnknownBudget);
      }
      var available := budgets[id].Limit() - consumed[id] - reserved[id];
      if amount > available {
        return Ok(false);
      }
      reserved := reserved[id := reserved[id] + amount];
      return Ok(true);
    }

    method Remaining(id: string) returns (r: Result<int, Budget.Error>)
      requires Valid()
      ensures r.Ok? <==> id in budgets
      ensures r.Ok? ==> r.value == Budget.Remaining(View(), id) && 0 <= r.value <= budgets[id].Limit()
    {
      if id !in budgets {
        return Err(Budget.UnknownBudget);
      }
      return Ok(budgets[id].Limit() - consumed[id] - reserved[id]);
    }

    method Release(id: string, amount: int) returns (r: Option<Budget.Error>)
      requires Valid()
      modifies this`reserved
      ensures Valid()
      ensures r.None? <==> Budget.Release(old(View()), id, amount).Ok?
      ensures View() == if r.None? then Budget.Release(old(View()), id, amount).value else old(View())
    {
      if id !in budgets {
        return Some(Budget.UnknownBudget);
      }
      if amount < 1 || amount > reserved[id] {
        return Some(Budget.BadAmount);
      }
      reserved := reserved[id := reserved[id] - amount];
      return None;
    }

    method Commit(id: string, amount: int) returns (r: Option<Budget.Error>)
      requires Valid()
      modifies this`reserved, this`consumed
      ensures Valid()
      ensures r.None? <==> Budget.Commit(old(View()), id, amount).Ok?
      ensures View() == if r.None? then Budget.Commit(old(View()), id, amount).value else old(View())
    {
      if id !in budgets {
        return Some(Budget.UnknownBudget);
      }
      if amount < 1 || amount > reserved[id] {
        return Some(Budget.BadAmount);
      }
      reserved := reserved[id := reserved[id] - amount];
      consumed := consumed[id := consumed[id] + amount];
      return None;
    }

    method Consume(id: string, amount: int) returns (r: Option<Budget.Error>)
      requires Valid()
      modifies this`consumed
      ensures Valid()
      ensures r.None? <==> Budget.Consume(old(View()), id, amount).Ok?
      ensures View() == if r.None? then Budget.Consume(old(View()), id, amount).value else old(View())
    {
      if amount < 1 {
        return Some(Budget.BadAmount);
      }
      if id !in budgets {
        return Some(Budget.UnknownBudget);
      }
      if amount > budgets[id].Limit() - consumed[id] - reserved[id] {
        return Some(Budget.Exhausted);
      }
      consumed := consumed[id := consumed[id] + amount];
      return None;
    }
  }
}
