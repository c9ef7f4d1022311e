/** Authority budgets: the definitions, how much one commit consumes, and the ledger. */
module Budget {
  import opened Wrappers
  import opened Amounts

  datatype AuthorityBudget =
    | Monetary(id: string, currency: string, limitMinorUnits: int)
    | Count(id: string, limitCount: int)
  {
    function Limit(): int {
      if Monetary? then limitMinorUnits else limitCount
    }
  }

  datatype Error = UnknownBudget | ConflictingDefinition | BadAmount | MissingCost | CurrencyMismatch | Exhausted

  /** The amount one commit consumes; a monetary budget never invents an amount. */
  function ConsumeAmount(budget: AuthorityBudget, cost: Option<Money>): (r: Result<int, Error>)
    ensures r.Ok? ==> r.value >= 1
    ensures r.Ok? <==>
              budget.Count? ||
              (cost.Some? && cost.value.currency == budget.currency && cost.value.minorUnits >= 1)
    ensures r.Ok? ==> r.value == if budget.Count? then 1 else cost.value.minorUnits
  {
    if budget.Count? then Ok(1)
    else if cost.None? then Err(MissingCost)
    else if cost.value.currency != budget.currency then Err(CurrencyMismatch)
    else if cost.value.minorUnits < 1 then Err(BadAmount)
    else Ok(cost.value.minorUnits)
  }

  /** The ledger as a value. */
  datatype Ledger = Ledger(
    budgets: map<string, AuthorityBudget>,
    consumed: map<string, int>,
    reserved: map<string, int>)

  const EmptyLedger := Ledger(map[], map[], map[])

  /** Every registered budget has both counters, neither is negative, and together
      they stay within the limit. */
  ghost predicate Sound(l: Ledger) {
    && l.budgets.Keys == l.consumed.Keys == l.reserved.Keys
    && forall b :: b in l.budgets ==>
         && l.budgets[b].id == b
         && 0 <= l.consumed[b] && 0 <= l.reserved[b]
         && l.consumed[b] + l.reserved[b] <= l.budgets[b].Limit()
  }

  /** Re-registering is accepted only for the same definition and keeps the counters. */
  function Register(l: Ledger, budget: AuthorityBudget): Result<Ledger, Error> {
    if budget.id in l.budgets && l.budgets[budget.id] != budget then Err(ConflictingDefinition)
    else
      var consumed := if budget.id in l.consumed then l.consumed else l.consumed[budget.id := 0];
      var reserved := if budget.id in l.reserved then l.reserved else l.reserved[budget.id := 0];
      Ok(Ledger(l.budgets[budget.id := budget], consumed, reserved))
  }

  /** A registration goes through unless another definition is registered under the id. A first one
      starts with nothing consumed and nothing reserved, a repeated one changes nothing, and neither
      touches another budget. */
  lemma RegisterExactly(l: Ledger, budget: AuthorityBudget, other: string)
    requires Sound(l) && other != budget.id
    ensures var r := Register(l, budget);
            && (r.Ok? <==> (budget.id in l.budgets ==> l.budgets[budget.id] == budget))
            && (budget.id in l.budgets ==>
                  r == if l.budgets[budget.id] == budget then Ok(l) else Err(ConflictingDefinition))
            && (budget.id !in l.budgets ==>
                  && budget.id in r.value.budgets && r.value.budgets[budget.id] == budget
                  && Held(r.value, budget.id) == 0 && Spent(r.value, budget.id) == 0
                  && (other in r.value.budgets <==> other in l.budgets)
                  && (other in l.budgets ==> r.value.budgets[other] == l.budgets[other])
                  && Held(r.value, other) == Held(l, other) && Spent(r.value, other) == Spent(l, other))
  {
    if budget.id in l.budgets && l.budgets[budget.id] == budget {
      assert Register(l, budget).value.budgets == l.budgets;
    }
  }

  function Held(l: Ledger, id: string): int {
    if id in l.reserved then l.reserved[id] else 0
  }

  function Spent(l: Ledger, id: string): int {
    if id in l.consumed then l.consumed[id] else 0
  }

  function Remaining(l: Ledger, id: string): int
    requires id in l.budgets
  {
    l.budgets[id].Limit() - Spent(l, id) - Held(l, id)
  }

  /** Ok(false) is the refusal of a reservation that does not fit. */
  function Reserve(l: Ledger, id: string, amount: int): Result<(Ledger, bool), Error> {
    if amount < 1 then Err(BadAmount)
    else if id !in l.budgets then Err(UnknownBudget)
    else if amount > Remaining(l, id) then Ok((l, false))
    else Ok((l.(reserved := l.reserved[id := Held(l, id) + amount]), true))
  }

  function Release(l: Ledger, id: string, amount: int): Result<Ledger, Error> {
    if id !in l.budgets then Err(UnknownBudget)
    else if amount < 1 || amount > Held(l, id) then Err(BadAmount)
    else Ok(l.(reserved := l.reserved[id := Held(l, id) - amount]))
  }

  /** Turns a reservation into consumption. */
  function Commit(l: Ledger, id: string, amount: int): Result<Ledger, Error> {
    if id !in l.budgets then Err(UnknownBudget)
    else if amount < 1 || amount > Held(l, id) then Err(BadAmount)
    else Ok(l.(reserved := l.reserved[id := Held(l, id) - amount],
               consumed := l.consumed[id := Spent(l, id) + amount]))
  }

  /** Consumes in one critical section, without a reservation. */
  function Consume(l: Ledger, id: string, amount: int): Result<Ledger, Error> {
    if amount < 1 then Err(BadAmount)
    else if id !in l.budgets then Err(UnknownBudget)
    else if amount > Remaining(l, id) then Err(Exhausted)
    else Ok(l.(consumed := l.consumed[id := Spent(l, id) + amount]))
  }

  /** The one-shot consumption is exactly a reservation followed by its commit. */
  lemma ConsumeIsReserveThenCommit(l: Ledger, id: string, amount: int)
    requires Sound(l)
    ensures Consume(l, id, amount).Ok? <==>
              Reserve(l, id, amount).Ok? && Reserve(l, id, amount).value.1
    ensures Consume(l, id, amount).Ok? ==>
              Commit(Reserve(l, id, amount).value.0, id, amount) == Consume(l, id, amount)
  {
    if Consume(l, id, amount).Ok? {
      var back := Commit(Reserve(l, id, amount).value.0, id, amount).value;
      assert back.reserved == l.reserved;
    }
  }

  /** A reservation goes through exactly for a positive amount that remains, and takes it off what
      remains of that budget and of no other. */
  lemma ReserveTakesWhatRemains(l: Ledger, id: string, amount: int, other: string)
    requires Sound(l) && id in l.budgets && other in l.budgets
    ensures Reserve(l, id, amount).Ok? && Reserve(l, id, amount).value.1 <==> 1 <= amount <= Remaining(l, id)
    ensures 1 <= amount <= Remaining(l, id) ==>
              Remaining(Reserve(l, id, amount).value.0, other) ==
                Remaining(l, other) - if other == id then amount else 0
    ensures 0 <= Remaining(l, other) <= l.budgets[other].Limit()
  {
  }

  /** A reservation that is released leaves the ledger as it was. */
  lemma ReserveThenReleaseRestores(l: Ledger, id: string, amount: int)
    requires Sound(l) && Reserve(l, id, amount).Ok? && Reserve(l, id, amount).value.1
    ensures Release(Reserve(l, id, amount).value.0, id, amount) == Ok(l)
  {
    var back := Release(Reserve(l, id, amount).value.0, id, amount).value;
    assert back.reserved == l.reserved;
  }
}
