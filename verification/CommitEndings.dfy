/** How a commit that runs undisturbed ends: for every case where it leaves its manifest, the ledger, the
    grant, the outbox and the provider; and exactly when it succeeds. */
module CommitEndings {
  import opened Wrappers
  import opened Faults
  import opened Lifecycle
  import opened CommitProtocol
  import opened CommitInvariants
  import opened CommitRuns
  import opened CommitTheorems
  import opened CommitOutbox
  import opened EngineSteps
  import opened CommitReplay
  import Budget
  import GrantStore
  import Outbox
  import Revocation
  import Pay = PaymentSimulator

  // ---------- from the outbox to the adapter ----------

  type Intents = Option<Outbox.Table<Manifest>>

  /** The outbox with the intent of a call in a given status, if there is an outbox. */
  function WithIntent(o: Intents, m: Manifest, g: Grant, status: Outbox.Status): Intents {
    if o.None? then None else Some(o.value[m.key := Outbox.Entry(g.id, m, status)])
  }

  lemma StatusReplaced(o: Intents, m: Manifest, g: Grant, status: Outbox.Status)
    ensures WithIntent(WithIntent(o, m, g, Outbox.Pending), m, g, status) == WithIntent(o, m, g, status)
  {
    if o.Some? {
      assert o.value[m.key := Outbox.Entry(g.id, m, Outbox.Pending)][m.key := Outbox.Entry(g.id, m, status)] ==
             o.value[m.key := Outbox.Entry(g.id, m, status)];
    }
  }

  lemma IntentTaken(x: Scene)
    requires x.a.at == RecordingIntent && x.a.job.Commit? && IntentAccepted(x.shared, x.a.job.manifest, x.a.job.grant)
    ensures var m, g := x.a.job.manifest, x.a.job.grant;
            Leads(x, Goes(x, Consulting).(
                       shared := x.shared.(outbox := WithIntent(x.shared.outbox, m, g, Outbox.Pending))), 1)
  {
    var m, g := x.a.job.manifest, x.a.job.grant;
    var y := Goes(x, Consulting).(shared := x.shared.(outbox := WithIntent(x.shared.outbox, m, g, Outbox.Pending)));
    IntendStep(x, Fine);
    if x.shared.outbox.Some? && m.key in x.shared.outbox.value {
      assert x.shared.outbox.value[m.key := Outbox.Entry(g.id, m, Outbox.Pending)] == x.shared.outbox.value;
    }
    LeadsOne(x, y);
  }

  lemma OutcomeLookedUp(x: Scene)
    requires x.a.at == Consulting && x.a.job.Commit?
    ensures var outcomes, key := x.shared.grants.outcomes, x.a.job.manifest.key;
            && (key !in outcomes ==> Leads(x, Goes(x, Validating), 1))
            && (key in outcomes ==> Leads(x, x.(a := x.a.(at := ReplayBudget(outcomes[key]), replayed := true)), 1))
  {
    ConsultStep(x, Fine);
    LeadsOne(x, Step(x, Fine));
  }

  lemma PreconditionsChecked(x: Scene)
    requires x.a.at == Validating && x.a.job.Commit?
    ensures var m := x.a.job.manifest;
            var hold := Pay.PreconditionsHold(x.shared.provider, m.payment, m.expectedBalance);
            Leads(x, Goes(x, if hold then Calling else FailingGrant(true)), 1)
  {
    ValidateStep(x, Fine);
    LeadsOne(x, Step(x, Fine));
  }

  lemma AdapterAnswers(x: Scene)
    requires x.a.at == Calling && x.a.job.Commit?
    ensures var m := x.a.job.manifest;
            var (after, reply) := Pay.Submit(x.shared.provider, m.key, m.payment);
            Leads(x, Scene(x.shared.(provider := after), x.records, Called(x.a, Pay.CommitReplyOf(reply))), 1)
  {
    CallStep(x, Fine);
    LeadsOne(x, Step(x, Fine));
  }

  // ---------- closing the books ----------

  type Charge = Option<(string, int)>

  predicate CanPay(l: Budget.Ledger, charge: Charge) {
    charge.Some? ==> Budget.Commit(l, charge.value.0, charge.value.1).Ok?
  }

  function Paid(l: Budget.Ledger, charge: Charge): Budget.Ledger
    requires CanPay(l, charge)
  {
    if charge.None? then l else Budget.Commit(l, charge.value.0, charge.value.1).value
  }

  predicate CanGiveBack(l: Budget.Ledger, charge: Charge) {
    charge.Some? ==> Budget.Release(l, charge.value.0, charge.value.1).Ok?
  }

  function GivenBack(l: Budget.Ledger, charge: Charge): Budget.Ledger
    requires CanGiveBack(l, charge)
  {
    if charge.None? then l else Budget.Release(l, charge.value.0, charge.value.1).value
  }

  /** The call's own intent is on record and pending. */
  predicate IntentPending(o: Intents, m: Manifest, g: Grant) {
    o.Some? ==> m.key in o.value && o.value[m.key] == Outbox.Entry(g.id, m, Outbox.Pending)
  }

  lemma BudgetPaid(x: Scene, reference: string)
    requires x.a.at == SpendingBudget(reference) && x.a.job.Commit? && CanPay(x.shared.ledger, x.a.charge)
    ensures Leads(x, Goes(x, ConfirmingIntent(reference)).(
                       shared := x.shared.(ledger := Paid(x.shared.ledger, x.a.charge))), 1)
  {
    SpendStep(x, reference, Fine);
    LeadsOne(x, Step(x, Fine));
  }

  lemma BudgetReturned(x: Scene)
    requires Releasing(x.a.at) && x.a.job.Commit? && CanGiveBack(x.shared.ledger, x.a.charge)
    ensures Leads(x, Goes(x, AfterRelease(x.a.at)).(
                       shared := x.shared.(ledger := GivenBack(x.shared.ledger, x.a.charge))), 1)
  {
    ReleaseStep(x, Fine);
    LeadsOne(x, Step(x, Fine));
  }

  lemma IntentClosed(x: Scene, reference: string, next: Point)
    requires x.a.job.Commit? && IntentPending(x.shared.outbox, x.a.job.manifest, x.a.job.grant)
    requires (x.a.at == ReplayIntent(reference) && next == ReplayGrant(reference))
             || (x.a.at == ConfirmingIntent(reference) && next == SpendingGrant(reference))
    ensures var m, g := x.a.job.manifest, x.a.job.grant;
            Leads(x, Goes(x, next).(
                       shared := x.shared.(outbox := WithIntent(x.shared.outbox, m, g, Outbox.Confirmed))), 1)
  {
    ConfirmStep(x, reference, next, Fine);
    LeadsOne(x, Step(x, Fine));
  }

  lemma UseCounted(x: Scene, reference: string)
    requires x.a.job.Commit? && (x.a.at == ReplayGrant(reference) || x.a.at == SpendingGrant(reference))
    requires GrantStore.Reserved(x.shared.grants, x.a.job.grant.id)
    ensures var m, g := x.a.job.manifest, x.a.job.grant;
            Leads(x, Goes(x, Moving(Settle, Read)).(
                       shared := x.shared.(
                         grants := GrantStore.Finalize(x.shared.grants, g.id, m.key, reference).value)), 1)
  {
    UseStep(x, reference, Fine);
    LeadsOne(x, Step(x, Fine));
  }

  /** The books of a call that succeeded, or was replayed, once closed. */
  function Closed(x: Scene, ledger: Budget.Ledger, reference: string): Scene
    requires x.a.job.Commit? && GrantStore.Reserved(x.shared.grants, x.a.job.grant.id)
  {
    var m, g := x.a.job.manifest, x.a.job.grant;
    Goes(x, Moving(Settle, Read)).(
      shared := x.shared.(
        ledger := ledger,
        outbox := WithIntent(x.shared.outbox, m, g, Outbox.Confirmed),
        grants := GrantStore.Finalize(x.shared.grants, g.id, m.key, reference).value))
  }

  lemma SuccessCloses(x: Scene, reference: string)
    requires x.a.at == SpendingBudget(reference) && x.a.job.Commit? && CanPay(x.shared.ledger, x.a.charge)
    requires IntentPending(x.shared.outbox, x.a.job.manifest, x.a.job.grant)
    requires GrantStore.Reserved(x.shared.grants, x.a.job.grant.id)
    ensures Leads(x, Closed(x, Paid(x.shared.ledger, x.a.charge), reference), 3)
  {
    var y := Goes(x, ConfirmingIntent(reference)).(shared := x.shared.(ledger := Paid(x.shared.ledger, x.a.charge)));
    BudgetPaid(x, reference);
    BooksClose(x, y, reference, SpendingGrant(reference));
  }

  lemma ReplayCloses(x: Scene, reference: string)
    requires x.a.at == ReplayBudget(reference) && x.a.job.Commit? && CanGiveBack(x.shared.ledger, x.a.charge)
    requires IntentPending(x.shared.outbox, x.a.job.manifest, x.a.job.grant)
    requires GrantStore.Reserved(x.shared.grants, x.a.job.grant.id)
    ensures Leads(x, Closed(x, GivenBack(x.shared.ledger, x.a.charge), reference), 3)
  {
    var y := Goes(x, ReplayIntent(reference)).(shared := x.shared.(ledger := GivenBack(x.shared.ledger, x.a.charge)));
    BudgetReturned(x);
    BooksClose(x, y, reference, ReplayGrant(reference));
  }

  lemma BooksClose(x: Scene, y: Scene, reference: string, next: Point)
    requires x.a.job.Commit? && Leads(x, y, 1)
    requires y == Goes(x, y.a.at).(shared := x.shared.(ledger := y.shared.ledger))
    requires IntentPending(x.shared.outbox, x.a.job.manifest, x.a.job.grant)
    requires GrantStore.Reserved(x.shared.grants, x.a.job.grant.id)
    requires (y.a.at == ReplayIntent(reference) && next == ReplayGrant(reference))
             || (y.a.at == ConfirmingIntent(reference) && next == SpendingGrant(reference))
    ensures Leads(x, Closed(x, y.shared.ledger, reference), 3)
  {
    var m, g := x.a.job.manifest, x.a.job.grant;
    var z := Goes(y, next).(shared := y.shared.(outbox := WithIntent(y.shared.outbox, m, g, Outbox.Confirmed)));
    IntentClosed(y, reference, next);
    LeadsOn(x, y, z, 1, 1);
    UseCounted(z, reference);
    LeadsOn(x, z, Closed(x, y.shared.ledger, reference), 2, 1);
  }

  /** The books of a call that failed, once unwound. An intent of unknown outcome stays pending. */
  function Unwound(x: Scene, abandon: bool): Scene
    requires x.a.job.Commit? && CanGiveBack(x.shared.ledger, x.a.charge)
  {
    var m, g := x.a.job.manifest, x.a.job.grant;
    Goes(x, Moving(Fail, Read)).(
      shared := x.shared.(
        grants := GrantStore.Release(x.shared.grants, g.id),
        ledger := GivenBack(x.shared.ledger, x.a.charge),
        outbox := WithIntent(x.shared.outbox, m, g, if abandon then Outbox.Abandoned else Outbox.Pending)))
  }

  lemma ReservationsReturned(x: Scene, abandon: bool) returns (y: Scene)
    requires x.a.at == FailingGrant(abandon) && x.a.job.Commit? && CanGiveBack(x.shared.ledger, x.a.charge)
    ensures Leads(x, y, 2)
    ensures y == Goes(x, if abandon then FailingIntent else Moving(Fail, Read)).(
                   shared := x.shared.(
                     grants := GrantStore.Release(x.shared.grants, x.a.job.grant.id),
                     ledger := GivenBack(x.shared.ledger, x.a.charge)))
  {
    var z := Goes(x, FailingBudget(abandon)).(
      shared := x.shared.(grants := GrantStore.Release(x.shared.grants, x.a.job.grant.id)));
    GiveGrantStep(x, Fine);
    LeadsOne(x, z);
    BudgetReturned(z);
    y := Goes(z, AfterRelease(z.a.at)).(shared := z.shared.(ledger := GivenBack(z.shared.ledger, z.a.charge)));
    LeadsOn(x, z, y, 1, 1);
  }

  lemma FailureUnwinds(x: Scene, abandon: bool)
    requires x.a.at == FailingGrant(abandon) && x.a.job.Commit? && CanGiveBack(x.shared.ledger, x.a.charge)
    requires IntentPending(x.shared.outbox, x.a.job.manifest, x.a.job.grant)
    ensures Leads(x, Unwound(x, abandon), if abandon then 3 else 2)
  {
    var m := x.a.job.manifest;
    var y := ReservationsReturned(x, abandon);
    if abandon {
      AbandonStep(y, Fine);
      LeadsOne(y, Unwound(x, abandon));
      LeadsOn(x, y, Unwound(x, abandon), 2, 1);
    } else if x.shared.outbox.Some? {
      assert x.shared.outbox.value[m.key := x.shared.outbox.value[m.key]] == x.shared.outbox.value;
    }
  }

  // ---------- from the launch to the outbox ----------

  /** The call has entered its manifest, holds its reservations and has recorded its intent. */
  function Pending(x: Scene): Scene
    requires x.a.job.Commit? && Reservable(x)
  {
    var m, g := x.a.job.manifest, x.a.job.grant;
    var held := Reserving(x);
    Scene(
      Shared(x.shared.lifecycle[m.id := Committing], held.shared.grants,
             WithIntent(x.shared.outbox, m, g, Outbox.Pending), held.shared.ledger, x.shared.provider),
      x.records[m.id := Committing],
      x.a.(at := Consulting, entered := true, charge := held.a.charge))
  }

  lemma ReachesPending(x: Scene)
    requires Launched(x) && PassesOutbox(x)
    ensures Leads(x, Pending(x), 8)
  {
    EnterSolo(x);
    var y := AtOutbox(x);
    IntentTaken(y);
    LeadsOn(x, y, Pending(x), 7, 1);
  }

  /** What the ledger makes of the reservation: consumed, or as if it had never been taken. */
  function Consumed(l: Budget.Ledger, m: Manifest, g: Grant): Budget.Ledger {
    if g.budgetId.None? || g.budgetId.value !in l.budgets then l
    else
      var id := g.budgetId.value;
      var amount := Budget.ConsumeAmount(l.budgets[id], m.cost);
      if amount.Err? then l else l.(consumed := l.consumed[id := Budget.Spent(l, id) + amount.value])
  }

  lemma LedgerSettles(x: Scene)
    requires x.a.job.Commit? && Reservable(x) && Budget.Sound(x.shared.ledger) && x.a.charge.None?
    ensures var held := Reserving(x);
            && CanPay(held.shared.ledger, held.a.charge) && CanGiveBack(held.shared.ledger, held.a.charge)
            && Paid(held.shared.ledger, held.a.charge) == Consumed(x.shared.ledger, x.a.job.manifest, x.a.job.grant)
            && GivenBack(held.shared.ledger, held.a.charge) == x.shared.ledger
  {
    var l, m, g := x.shared.ledger, x.a.job.manifest, x.a.job.grant;
    if g.budgetId.Some? {
      var id, amount := g.budgetId.value, BudgetDemand(l, g.budgetId.value, m).value;
      Budget.ReserveThenReleaseRestores(l, id, amount);
      Budget.ConsumeIsReserveThenCommit(l, id, amount);
    }
  }

  /** The slot of the grant, made if there was none, with so many more uses and nothing in flight. */
  function Slotted(s: GrantStore.Grants, g: Grant, more: nat): GrantStore.Grants {
    var slot := if g.id in s.slots then s.slots[g.id] else GrantStore.Slot(g.maxUses, 0, false, false);
    s.(slots := s.slots[g.id := slot.(uses := slot.uses + more)])
  }

  lemma GrantSettles(s: GrantStore.Grants, g: Grant, key: string, outcome: string)
    requires GrantStore.Reserve(s, g.id, g.maxUses).1
    ensures var held := GrantStore.Reserve(s, g.id, g.maxUses).0;
            && GrantStore.Reserved(held, g.id)
            && GrantStore.Finalize(held, g.id, key, outcome) ==
                 Some(Slotted(s, g, 1).(outcomes := s.outcomes[key := outcome]))
            && GrantStore.Release(held, g.id) == Slotted(s, g, 0)
  {
    var slot := if g.id in s.slots then s.slots[g.id] else GrantStore.Slot(g.maxUses, 0, false, false);
    var held := s.slots[g.id := slot.(reserved := true)];
    assert held[g.id := slot.(uses := slot.uses + 1)] == s.slots[g.id := slot.(uses := slot.uses + 1)];
    assert held[g.id := slot] == s.slots[g.id := slot];
  }

  /** The manifest is in the given state in the store and in memory alike. */
  predicate StandsAt(x: Scene, id: string, state: State) {
    id in x.shared.lifecycle && x.shared.lifecycle[id] == state && id in x.records && x.records[id] == state
  }

  lemma MovesOn(x: Scene, id: string, goal: Goal, state: State) returns (y: Scene)
    requires x.a.at == Moving(goal, Read) && (goal == Settle || goal == Fail) && x.a.job.Commit?
    requires id == x.a.job.manifest.id && StandsAt(x, id, Committing)
    requires state == if goal == Settle then Committed else Failed
    ensures Leads(x, y, 4) && y.a == x.a.(at := Done)
    ensures y.shared == x.shared.(lifecycle := x.shared.lifecycle[id := state]) && y.records == x.records[id := state]
  {
    TransitionSolo(x, goal);
    y := Moved(x, goal);
  }

  // ---------- the endings ----------

  /** What a call leaves in the stores: its manifest in the given state, its intent with the given status,
      its grant with so many more uses and nothing in flight, the outcomes, the ledger and the provider as
      given, and nothing else changed. */
  function StoresLeft(x: Scene, state: State, status: Outbox.Status, uses: nat, outcomes: map<string, string>,
                      ledger: Budget.Ledger, provider: Pay.Provider): Shared
    requires x.a.job.Commit?
  {
    var m, g := x.a.job.manifest, x.a.job.grant;
    Shared(x.shared.lifecycle[m.id := state], Slotted(x.shared.grants, g, uses).(outcomes := outcomes),
           WithIntent(x.shared.outbox, m, g, status), ledger, provider)
  }

  predicate Ended(x: Scene, y: Scene, state: State, s: Shared)
    requires x.a.job.Commit?
  {
    y.a.at.Done? && y.a.job == x.a.job && y.records == x.records[x.a.job.manifest.id := state] && y.shared == s
  }

  /** The last transition of a call whose books are done. */
  lemma LastMove(
      x: Scene, z: Scene, n: nat, goal: Goal, state: State, status: Outbox.Status, uses: nat,
      outcomes: map<string, string>, ledger: Budget.Ledger, provider: Pay.Provider) returns (y: Scene)
    requires x.a.job.Commit? && z.a.job == x.a.job && Leads(x, z, n)
    requires z.a.at == Moving(goal, Read) && (goal == Settle || goal == Fail)
    requires z.records == x.records[x.a.job.manifest.id := Committing]
    requires z.shared == StoresLeft(x, Committing, status, uses, outcomes, ledger, provider)
    requires state == if goal == Settle then Committed else Failed
    ensures Leads(x, y, n + 4) && y.a == z.a.(at := Done)
    ensures Ended(x, y, state, StoresLeft(x, state, status, uses, outcomes, ledger, provider))
  {
    y := MovesOn(z, x.a.job.manifest.id, goal, state);
    LeadsOn(x, z, y, n, 4);
    Overwritten(x.shared.lifecycle, x.a.job.manifest.id, state);
    Overwritten(x.records, x.a.job.manifest.id, state);
  }

  lemma Overwritten(table: map<string, State>, id: string, state: State)
    ensures table[id := Committing][id := state] == table[id := state]
  {
  }

  /** A key with a recorded outcome is answered from the idempotency ledger: COMMITTED, the intent
      confirmed, one use spent, no budget consumed and the provider not asked. */
  lemma ReplaySolo(x: Scene) returns (y: Scene)
    requires Launched(x) && PassesOutbox(x) && Budget.Sound(x.shared.ledger)
    requires x.a.job.manifest.key in x.shared.grants.outcomes
    ensures Leads(x, y, 16) && y.a.replayed && !y.a.succeeded
    ensures Ended(x, y, Committed,
                  StoresLeft(x, Committed, Outbox.Confirmed, 1, x.shared.grants.outcomes, x.shared.ledger,
                             x.shared.provider))
  {
    var z := ReplayBooks(x);
    y := LastMove(x, z, 12, Settle, Committed, Outbox.Confirmed, 1, x.shared.grants.outcomes, x.shared.ledger,
                  x.shared.provider);
  }

  /** What a call at its outbox can count on. */
  lemma PendingHolds(x: Scene)
    requires Launched(x) && PassesOutbox(x) && Budget.Sound(x.shared.ledger)
    ensures var y := Pending(x);
            && IntentPending(y.shared.outbox, x.a.job.manifest, x.a.job.grant)
            && GrantStore.Reserved(y.shared.grants, x.a.job.grant.id)
            && CanPay(y.shared.ledger, y.a.charge) && CanGiveBack(y.shared.ledger, y.a.charge)
            && Paid(y.shared.ledger, y.a.charge) == Consumed(x.shared.ledger, x.a.job.manifest, x.a.job.grant)
            && GivenBack(y.shared.ledger, y.a.charge) == x.shared.ledger
            && y.shared.grants == GrantStore.Reserve(x.shared.grants, x.a.job.grant.id, x.a.job.grant.maxUses).0
  {
    LedgerSettles(x);
  }

  /** The stores after the books were closed, or unwound, on top of those of the pending call. */
  lemma ClosedStores(x: Scene, y: Scene, ledger: Budget.Ledger, reference: string)
    requires x.a.job.Commit? && Reservable(x) && y.a.job == x.a.job
    requires y.shared == Pending(x).shared.(provider := y.shared.provider)
    requires Pending(x).shared.grants == GrantStore.Reserve(x.shared.grants, x.a.job.grant.id, x.a.job.grant.maxUses).0
    requires GrantStore.Reserved(y.shared.grants, x.a.job.grant.id)
    ensures Closed(y, ledger, reference).shared ==
              StoresLeft(x, Committing, Outbox.Confirmed, 1,
                         x.shared.grants.outcomes[x.a.job.manifest.key := reference],
                         ledger, y.shared.provider)
  {
    GrantSettles(x.shared.grants, x.a.job.grant, x.a.job.manifest.key, reference);
    StatusReplaced(x.shared.outbox, x.a.job.manifest, x.a.job.grant, Outbox.Confirmed);
  }

  lemma UnwoundStores(x: Scene, y: Scene, abandon: bool)
    requires x.a.job.Commit? && Reservable(x) && y.a.job == x.a.job && CanGiveBack(y.shared.ledger, y.a.charge)
    requires y.shared == Pending(x).shared.(provider := y.shared.provider)
    requires Pending(x).shared.grants == GrantStore.Reserve(x.shared.grants, x.a.job.grant.id, x.a.job.grant.maxUses).0
    ensures Unwound(y, abandon).shared ==
              StoresLeft(x, Committing, if abandon then Outbox.Abandoned else Outbox.Pending, 0,
                         x.shared.grants.outcomes,
                         GivenBack(y.shared.ledger, y.a.charge), y.shared.provider)
  {
    GrantSettles(x.shared.grants, x.a.job.grant, x.a.job.manifest.key, "");
    StatusReplaced(x.shared.outbox, x.a.job.manifest, x.a.job.grant,
                   if abandon then Outbox.Abandoned else Outbox.Pending);
  }

  lemma ReplayBooks(x: Scene) returns (z: Scene)
    requires Launched(x) && PassesOutbox(x) && Budget.Sound(x.shared.ledger)
    requires x.a.job.manifest.key in x.shared.grants.outcomes
    ensures Leads(x, z, 12) && z.a == Pending(x).a.(at := Moving(Settle, Read), replayed := true)
    ensures z.records == x.records[x.a.job.manifest.id := Committing]
    ensures z.shared ==
              StoresLeft(x, Committing, Outbox.Confirmed, 1, x.shared.grants.outcomes, x.shared.ledger,
                         x.shared.provider)
  {
    var m, outcomes := x.a.job.manifest, x.shared.grants.outcomes;
    var y1 := Pending(x);
    var y2 := y1.(a := y1.a.(at := ReplayBudget(outcomes[m.key]), replayed := true));
    PendingHolds(x);
    ReachesPending(x);
    OutcomeLookedUp(y1);
    LeadsOn(x, y1, y2, 8, 1);
    ReplayCloses(y2, outcomes[m.key]);
    z := Closed(y2, x.shared.ledger, outcomes[m.key]);
    LeadsOn(x, y2, z, 9, 3);
    ClosedStores(x, y2, x.shared.ledger, outcomes[m.key]);
    assert outcomes[m.key := outcomes[m.key]] == outcomes;
  }

  predicate NewKey(x: Scene)
    requires x.a.job.Commit?
  {
    x.a.job.manifest.key !in x.shared.grants.outcomes
  }

  lemma ReachesPreconditions(x: Scene)
    requires Launched(x) && PassesOutbox(x) && NewKey(x)
    ensures var m := x.a.job.manifest;
            var hold := Pay.PreconditionsHold(x.shared.provider, m.payment, m.expectedBalance);
            Leads(x, Goes(Pending(x), if hold then Calling else FailingGrant(true)), 10)
  {
    var m := x.a.job.manifest;
    var hold := Pay.PreconditionsHold(x.shared.provider, m.payment, m.expectedBalance);
    var y := Pending(x);
    ReachesPending(x);
    OutcomeLookedUp(y);
    LeadsOn(x, y, Goes(y, Validating), 8, 1);
    PreconditionsChecked(Goes(y, Validating));
    LeadsOn(x, Goes(y, Validating), Goes(y, if hold then Calling else FailingGrant(true)), 9, 1);
  }

  /** The call reaches the adapter. */
  predicate Submits(x: Scene)
    requires x.a.job.Commit?
  {
    var m := x.a.job.manifest;
    PassesOutbox(x) && NewKey(x) && Pay.PreconditionsHold(x.shared.provider, m.payment, m.expectedBalance)
  }

  function ReplyTo(x: Scene): Pay.CommitReply
    requires x.a.job.Commit?
  {
    Pay.CommitReplyOf(Pay.Submit(x.shared.provider, x.a.job.manifest.key, x.a.job.manifest.payment).1)
  }

  function ProviderAfter(x: Scene): Pay.Provider
    requires x.a.job.Commit?
  {
    Pay.Submit(x.shared.provider, x.a.job.manifest.key, x.a.job.manifest.payment).0
  }

  /** The scene in which the adapter has come back. */
  function Answered(x: Scene): Scene
    requires x.a.job.Commit? && Reservable(x)
  {
    var y := Pending(x);
    Scene(y.shared.(provider := ProviderAfter(x)), y.records, Called(y.a, ReplyTo(x)))
  }

  lemma ReachesAnswer(x: Scene)
    requires Launched(x) && Submits(x)
    ensures Leads(x, Answered(x), 11)
  {
    var y := Goes(Pending(x), Calling);
    ReachesPreconditions(x);
    AdapterAnswers(y);
    LeadsOn(x, y, Answered(x), 10, 1);
  }

  /** A success: COMMITTED, the intent confirmed, one use spent, the resolved amount consumed and the
      provider's reference recorded as the outcome of the key. */
  lemma SuccessSolo(x: Scene, reference: string) returns (y: Scene)
    requires Launched(x) && Submits(x) && Budget.Sound(x.shared.ledger) && ReplyTo(x) == Pay.Success(reference)
    ensures Leads(x, y, 18) && y.a.succeeded && !y.a.replayed
    ensures var m, g := x.a.job.manifest, x.a.job.grant;
            var outcome := if reference == "" then "committed" else reference;
            Ended(x, y, Committed,
                  StoresLeft(x, Committed, Outbox.Confirmed, 1, x.shared.grants.outcomes[m.key := outcome],
                             Consumed(x.shared.ledger, m, g), ProviderAfter(x)))
  {
    var m, g := x.a.job.manifest, x.a.job.grant;
    var z := SuccessBooks(x, reference);
    y := LastMove(x, z, 14, Settle, Committed, Outbox.Confirmed, 1,
                  x.shared.grants.outcomes[m.key := OutcomeRef(reference)],
                  Consumed(x.shared.ledger, m, g), ProviderAfter(x));
  }

  lemma SuccessBooks(x: Scene, reference: string) returns (z: Scene)
    requires Launched(x) && Submits(x) && Budget.Sound(x.shared.ledger) && ReplyTo(x) == Pay.Success(reference)
    ensures Leads(x, z, 14) && z.a == Pending(x).a.(at := Moving(Settle, Read), succeeded := true)
    ensures z.records == x.records[x.a.job.manifest.id := Committing]
    ensures var m, g := x.a.job.manifest, x.a.job.grant;
            z.shared ==
              StoresLeft(x, Committing, Outbox.Confirmed, 1, x.shared.grants.outcomes[m.key := OutcomeRef(reference)],
                         Consumed(x.shared.ledger, m, g), ProviderAfter(x))
  {
    var y := Answered(x);
    PendingHolds(x);
    ReachesAnswer(x);
    SuccessCloses(y, OutcomeRef(reference));
    z := Closed(y, Paid(y.shared.ledger, y.a.charge), OutcomeRef(reference));
    LeadsOn(x, y, z, 11, 3);
    ClosedStores(x, y, Paid(y.shared.ledger, y.a.charge), OutcomeRef(reference));
  }

  /** How every failure ends: FAILED, no use spent, nothing consumed and no outcome recorded; the intent
      is abandoned, unless the outcome is unknown. */
  lemma FailureEnds(x: Scene, y: Scene, n: nat, abandon: bool) returns (z: Scene)
    requires Launched(x) && PassesOutbox(x) && Budget.Sound(x.shared.ledger) && Leads(x, y, n)
    requires y.a == Pending(x).a.(at := FailingGrant(abandon)) && y.records == Pending(x).records
    requires y.shared == Pending(x).shared.(provider := y.shared.provider)
    ensures Leads(x, z, n + if abandon then 7 else 6) && !z.a.succeeded && !z.a.replayed && z.a.entered
    ensures Ended(x, z, Failed,
                  StoresLeft(x, Failed, if abandon then Outbox.Abandoned else Outbox.Pending, 0,
                             x.shared.grants.outcomes,
                             x.shared.ledger, y.shared.provider))
  {
    PendingHolds(x);
    FailureUnwinds(y, abandon);
    var u := Unwound(y, abandon);
    LeadsOn(x, y, u, n, if abandon then 3 else 2);
    UnwoundStores(x, y, abandon);
    z := LastMove(x, u, n + if abandon then 3 else 2, Fail, Failed,
                  if abandon then Outbox.Abandoned else Outbox.Pending, 0,
                  x.shared.grants.outcomes, x.shared.ledger, y.shared.provider);
  }

  /** Preconditions that no longer hold: the provider is not asked. */
  lemma StaleSolo(x: Scene) returns (y: Scene)
    requires Launched(x) && PassesOutbox(x) && NewKey(x) && !Submits(x) && Budget.Sound(x.shared.ledger)
    ensures Leads(x, y, 17) && !y.a.succeeded && !y.a.replayed && y.a.entered
    ensures Ended(x, y, Failed,
                  StoresLeft(x, Failed, Outbox.Abandoned, 0, x.shared.grants.outcomes, x.shared.ledger,
                             x.shared.provider))
  {
    ReachesPreconditions(x);
    y := FailureEnds(x, Goes(Pending(x), FailingGrant(true)), 10, true);
  }

  /** An adapter that reports a failure, although the provider may have settled, and one that raises, which
      leaves the intent pending for recovery. */
  lemma NoSuccessSolo(x: Scene) returns (y: Scene, n: nat)
    requires Launched(x) && Submits(x) && Budget.Sound(x.shared.ledger) && !ReplyTo(x).Success?
    ensures Leads(x, y, n) && n > 0 && !y.a.succeeded && !y.a.replayed && y.a.entered
    ensures Ended(x, y, Failed,
                  StoresLeft(x, Failed, if ReplyTo(x).Failure? then Outbox.Abandoned else Outbox.Pending, 0,
                             x.shared.grants.outcomes, x.shared.ledger, ProviderAfter(x)))
  {
    ReachesAnswer(x);
    y := FailureEnds(x, Answered(x), 11, ReplyTo(x).Failure?);
    n := if ReplyTo(x).Failure? then 18 else 17;
  }

  /** A call that the outbox refuses gives everything back; its manifest stays in COMMITTING. */
  lemma RefusedSolo(x: Scene) returns (y: Scene)
    requires Launched(x) && Reservable(x) && Movable(x, x.a.job.manifest.id, Committing)
             && Budget.Sound(x.shared.ledger)
    requires !IntentAccepted(x.shared, x.a.job.manifest, x.a.job.grant)
    ensures Leads(x, y, 10) && y.a.at.Done? && y.a.job == x.a.job && y.a.entered && !y.a.succeeded && !y.a.replayed
    ensures var m, g := x.a.job.manifest, x.a.job.grant;
            && y.records == x.records[m.id := Committing]
            && y.shared == x.shared.(lifecycle := x.shared.lifecycle[m.id := Committing],
                                     grants := Slotted(x.shared.grants, g, 0))
  {
    var z := Goes(AtOutbox(x), UndoingGrant);
    ReachesRefusal(x);
    RefusedStores(x);
    y := GivesUp(z);
    LeadsOn(x, z, y, 8, 2);
  }

  lemma ReachesRefusal(x: Scene)
    requires Launched(x) && Reservable(x) && Movable(x, x.a.job.manifest.id, Committing)
    requires !IntentAccepted(x.shared, x.a.job.manifest, x.a.job.grant)
    ensures Leads(x, Goes(AtOutbox(x), UndoingGrant), 8)
  {
    var y := AtOutbox(x);
    EnterSolo(x);
    IntendStep(y, Fine);
    LeadsOne(y, Goes(y, UndoingGrant));
    LeadsOn(x, y, Goes(y, UndoingGrant), 7, 1);
  }

  lemma RefusedStores(x: Scene)
    requires Launched(x) && Reservable(x) && Budget.Sound(x.shared.ledger)
    ensures var m, g, y := x.a.job.manifest, x.a.job.grant, AtOutbox(x);
            && y.a == x.a.(at := RecordingIntent, entered := true, charge := Reserving(x).a.charge)
            && y.records == x.records[m.id := Committing]
            && CanGiveBack(y.shared.ledger, y.a.charge)
            && y.shared.(grants := GrantStore.Release(y.shared.grants, g.id),
                         ledger := GivenBack(y.shared.ledger, y.a.charge)) ==
                 x.shared.(lifecycle := x.shared.lifecycle[m.id := Committing],
                           grants := Slotted(x.shared.grants, g, 0))
  {
    LedgerSettles(x);
    GrantSettles(x.shared.grants, x.a.job.grant, x.a.job.manifest.key, "");
  }

  lemma GivesUp(x: Scene) returns (y: Scene)
    requires x.a.at == UndoingGrant && x.a.job.Commit? && CanGiveBack(x.shared.ledger, x.a.charge)
    ensures Leads(x, y, 2)
    ensures y == Goes(x, Done).(
                   shared := x.shared.(
                     grants := GrantStore.Release(x.shared.grants, x.a.job.grant.id),
                     ledger := GivenBack(x.shared.ledger, x.a.charge)))
  {
    var z := Goes(x, UndoingBudget).(
      shared := x.shared.(grants := GrantStore.Release(x.shared.grants, x.a.job.grant.id)));
    GiveGrantStep(x, Fine);
    LeadsOne(x, z);
    BudgetReturned(z);
    y := Goes(z, Done).(shared := z.shared.(ledger := GivenBack(z.shared.ledger, z.a.charge)));
    LeadsOn(x, z, y, 1, 1);
  }

  /** A raise while the preconditions are checked, or by the adapter itself before or after its effect, if
      nothing else goes wrong: FAILED, with both reservations given back. The intent is abandoned when the
      adapter was not reached, and stays pending when its outcome is unknown. */
  lemma RaiseSolo(x: Scene, fault: Fault) returns (y: Scene, n: nat)
    requires x.a.job.Commit? && (x.a.at.Validating? || x.a.at.Calling?) && !fault.Fine?
    requires CanGiveBack(x.shared.ledger, x.a.charge) && IntentPending(x.shared.outbox, x.a.job.manifest, x.a.job.grant)
    requires StandsAt(x, x.a.job.manifest.id, Committing)
    ensures Leads(Step(x, fault), y, n) && y.a == x.a.(at := Done)
    ensures var m, g := x.a.job.manifest, x.a.job.grant;
            && y.records == x.records[m.id := Failed]
            && y.shared ==
                 Shared(x.shared.lifecycle[m.id := Failed], GrantStore.Release(x.shared.grants, g.id),
                        WithIntent(x.shared.outbox, m, g,
                                   if x.a.at.Validating? then Outbox.Abandoned else Outbox.Pending),
                        GivenBack(x.shared.ledger, x.a.charge),
                        if x.a.at.Calling? && !fault.Raises? then ProviderAfter(x) else x.shared.provider)
  {
    RaiseFails(x, fault);
    y, n := FailureGoesThrough(Step(x, fault), x.a.at.Validating?);
  }

  lemma FailureGoesThrough(x: Scene, abandon: bool) returns (y: Scene, n: nat)
    requires x.a.job.Commit? && x.a.at == FailingGrant(abandon) && CanGiveBack(x.shared.ledger, x.a.charge)
    requires IntentPending(x.shared.outbox, x.a.job.manifest, x.a.job.grant)
    requires StandsAt(x, x.a.job.manifest.id, Committing)
    ensures Leads(x, y, n) && y.a == x.a.(at := Done) && y.records == x.records[x.a.job.manifest.id := Failed]
    ensures y.shared ==
              Unwound(x, abandon).shared.(lifecycle := x.shared.lifecycle[x.a.job.manifest.id := Failed])
  {
    FailureUnwinds(x, abandon);
    var u := Unwound(x, abandon);
    y := MovesOn(u, x.a.job.manifest.id, Fail, Failed);
    n := if abandon then 7 else 6;
    LeadsOn(x, u, y, if abandon then 3 else 2, 4);
  }

  lemma RaiseFails(x: Scene, fault: Fault)
    requires x.a.job.Commit? && (x.a.at.Validating? || x.a.at.Calling?) && !fault.Fine?
    ensures Step(x, fault) ==
              Goes(x, FailingGrant(x.a.at.Validating?)).(
                shared := x.shared.(
                  provider := if x.a.at.Calling? && !fault.Raises? then ProviderAfter(x) else x.shared.provider))
  {
    if x.a.at.Validating? {
      ValidateStep(x, fault);
    } else {
      CallStep(x, fault);
    }
  }

  // ---------- there is one ending ----------

  lemma {:induction false} DoneStays(path: seq<Scene>, n: nat, k: nat)
    requires Quiet(path) && n <= k < |path| && path[n].a.at.Done?
    ensures path[k] == path[n]
    decreases k
  {
    if n < k {
      DoneStays(path, n, k - 1);
      assert IsStep(path, k - 1);
    }
  }

  /** An undisturbed call that comes to its end does so in one scene only, and before it tells nothing that
      it does not tell then. */
  lemma OneEnding(x: Scene, y: Scene, n: nat, z: Scene, k: nat)
    requires Leads(x, y, n) && y.a.at.Done? && Leads(x, z, k)
    ensures z.a.at.Done? ==> z == y
    ensures (z.a.succeeded ==> y.a.succeeded) && (z.a.replayed ==> y.a.replayed)
  {
    var p :| Quiet(p) && |p| == n + 1 && p[0] == x && p[n] == y;
    var q :| Quiet(q) && |q| == k + 1 && q[0] == x && q[k] == z;
    if n <= k {
      PathUnique(p, q, n);
      DoneStays(q, n, k);
    } else {
      PathUnique(p, q, k);
      ToldAlong(p, k, n);
      if z.a.at.Done? {
        DoneStays(p, k, n);
      }
    }
  }

  lemma RefusedIsNotServed(x: Scene)
    requires Launched(x) && !PassesOutbox(x)
    ensures NotServed(x)
  {
    ReserveSolo(x);
    if Reservable(x) {
      EnterSolo(x);
      if Movable(x, x.a.job.manifest.id, Committing) {
        var y := AtOutbox(x);
        IntendStep(y, Fine);
        LeadsOne(y, Step(y, Fine));
        LeadsOn(x, y, Step(y, Fine), 7, 1);
        GivingUpIsFinal(x, Step(y, Fine), 8);
      }
    }
  }

  /** A call that gets past the outbox comes to an end; which one, the stores decide at the start. */
  lemma PassedCallEnds(x: Scene) returns (y: Scene, n: nat)
    requires Launched(x) && PassesOutbox(x) && Budget.Sound(x.shared.ledger)
    ensures Leads(x, y, n) && y.a.at.Done?
    ensures y.a.succeeded <==> Submits(x) && ReplyTo(x).Success?
    ensures y.a.replayed <==> !NewKey(x)
    ensures StandsAt(y, x.a.job.manifest.id, if y.a.succeeded || y.a.replayed then Committed else Failed)
  {
    if !NewKey(x) {
      y := ReplaySolo(x);
      n := 16;
    } else if !Submits(x) {
      y := StaleSolo(x);
      n := 17;
    } else if ReplyTo(x).Success? {
      y := SuccessSolo(x, ReplyTo(x).reference);
      n := 18;
    } else {
      y, n := NoSuccessSolo(x);
    }
  }

  /** Whenever an undisturbed commit ends with a success or a replay, its manifest is COMMITTED, in the
      store and in the engine's memory. */
  lemma ServedMeansCommitted(x: Scene, y: Scene, n: nat)
    requires Launched(x) && Budget.Sound(x.shared.ledger) && Leads(x, y, n) && y.a.at.Done?
    requires y.a.succeeded || y.a.replayed
    ensures StandsAt(y, x.a.job.manifest.id, Committed)
  {
    if PassesOutbox(x) {
      var z, k := PassedCallEnds(x);
      OneEnding(x, z, k, y, n);
    } else {
      RefusedIsNotServed(x);
    }
  }

  /** An undisturbed commit succeeds exactly when it gets past the outbox with a new key, finds its
      preconditions holding, and the provider answers with a settled record. */
  lemma SucceedsExactlyWhen(x: Scene)
    requires Launched(x) && Budget.Sound(x.shared.ledger)
    ensures EverSuccessful(x) <==> Submits(x) && ReplyTo(x).Success?
  {
    if PassesOutbox(x) {
      var y, n := PassedCallEnds(x);
      forall z, k | Leads(x, z, k)
        ensures z.a.succeeded ==> y.a.succeeded
      {
        OneEnding(x, y, n, z, k);
      }
    } else {
      RefusedIsNotServed(x);
    }
  }

  // ---------- in reachable worlds ----------

  /** What the checks before the reservations come to. */
  lemma AdmittedExactly(s: Shared, m: Manifest, g: Grant)
    ensures Admitted(s, m, g) <==>
              && g.boundTo == Some(m) && !GrantStore.IsRevoked(s.grants, g.id)
              && (g.parent.Some? ==> HasClearPath(s.grants, g))
  {
    if g.parent.Some? {
      var r := Revocation.Walk(s.grants, g.id, g.parent, Revocation.MAX_DELEGATION_DEPTH);
      if r.Ok? {
        Revocation.WalkAccepts(s.grants, g.id, g.parent.value, Revocation.MAX_DELEGATION_DEPTH, r.value);
        assert ClearPath(s.grants, g, r.value);
      }
      if HasClearPath(s.grants, g) {
        var path :| ClearPath(s.grants, g, path);
        Revocation.WalkAccepts(s.grants, g.id, g.parent.value, Revocation.MAX_DELEGATION_DEPTH, path);
      }
    }
  }

  ghost predicate HasClearPath(s: GrantStore.Grants, g: Grant)
    requires g.parent.Some?
  {
    exists path :: ClearPath(s, g, path)
  }

  /** The recorded parents lead to a recorded root within 16 grants, none of them revoked or the grant. */
  ghost predicate ClearPath(s: GrantStore.Grants, g: Grant, path: seq<string>)
    requires g.parent.Some?
  {
    Revocation.RootPath(s.lineage, g.parent.value, path) && |path| <= 16 && Revocation.Clear(s, g.id, path)
  }

  /** What the two reservations need. */
  lemma ReservationsExactly(s: Shared, m: Manifest, g: Grant)
    requires Budget.Sound(s.ledger)
    ensures BudgetAvailable(s, m, g) <==>
              (g.budgetId.Some? ==>
                 && g.budgetId.value in s.ledger.budgets
                 && var amount := Budget.ConsumeAmount(s.ledger.budgets[g.budgetId.value], m.cost);
                    amount.Ok? && amount.value <= Budget.Remaining(s.ledger, g.budgetId.value))
    ensures GrantAvailable(s, g) <==>
              && !GrantStore.IsRevoked(s.grants, g.id) && !GrantStore.Reserved(s.grants, g.id)
              && GrantStore.Uses(s.grants, g.id)
                   < if g.id in s.grants.slots then s.grants.slots[g.id].maxUses else g.maxUses
  {
    GrantStore.ReserveExactly(s.grants, g.id, g.maxUses);
  }

  /** The provider answers with a settled record: it holds one already, or nothing stands in the way of the
      first settlement and of its reply. */
  predicate WillSettle(p: Pay.Provider, m: Manifest) {
    if m.key in p.payments then p.payments[m.key].settled
    else !p.failNext && !p.timeoutNext && m.payment.source in p.balances
  }

  ghost predicate Succeeds(w: World, i: nat) {
    exists n: nat :: SucceedsAfter(w, i, n)
  }

  ghost predicate SucceedsAfter(w: World, i: nat, n: nat) {
    var v := RunFrom(w, Steps(i, n));
    i < |v.attempts| && v.attempts[i].succeeded
  }

  lemma SucceedsIsEverSuccessful(w: World, i: nat)
    requires i < |w.attempts|
    ensures Succeeds(w, i) <==> EverSuccessful(SceneOf(w, i))
  {
    if Succeeds(w, i) {
      var n: nat :| SucceedsAfter(w, i, n);
      var path := PathExists(SceneOf(w, i), n);
      PathIsRun(w, i, path, n);
      assert Leads(SceneOf(w, i), path[n], n);
    }
    if EverSuccessful(SceneOf(w, i)) {
      var y: Scene, n: nat :| Leads(SceneOf(w, i), y, n) && y.a.succeeded;
      var path :| Quiet(path) && |path| == n + 1 && path[0] == SceneOf(w, i) && path[n] == y;
      PathIsRun(w, i, path, n);
      assert SucceedsAfter(w, i, n);
    }
  }

  /** What a caller can look up to know whether an undisturbed commit will be carried out. */
  ghost predicate CanBeCarriedOut(w: World, e: nat, m: Manifest, g: Grant) {
    && Admitted(w.shared, m, g) && BudgetAvailable(w.shared, m, g) && GrantAvailable(w.shared, g)
    && Stored(w.shared.lifecycle, m.id) == Authorized
    && (m.id in Memory(w, e) ==> Memory(w, e)[m.id] == Authorized)
    && !OnRecord(w.shared, m.key) && m.key !in w.shared.grants.outcomes
    && Pay.Balance(w.shared.provider, m.payment.source) == m.expectedBalance
    && m.payment.Total() <= m.expectedBalance && WillSettle(w.shared.provider, m)
  }

  lemma SubmitsExactly(w: World, e: nat, m: Manifest, g: Grant, x: Scene)
    requires Inv(w) && Owned(w) && x == Scene(w.shared, Memory(w, e), Launch(e, Commit(m, g)))
    ensures Submits(x) && ReplyTo(x).Success? <==> CanBeCarriedOut(w, e, m, g)
  {
    MovableMeans(x, m.id);
    if Stored(w.shared.lifecycle, m.id) == Authorized {
      FreshManifestNeedsFreshKey(w, m, g);
    }
    var p := w.shared.provider;
    var reference := if m.key in p.payments then p.payments[m.key].reference else m.payment.reference;
    Pay.CommitReplyExactly(p, m.key, m.payment, reference);
    if ReplyTo(x).Success? {
      Pay.CommitReplyExactly(p, m.key, m.payment, ReplyTo(x).reference);
    }
  }

  /** After any run whatsoever: a commit that then runs undisturbed is carried out if and only if what the
      caller can look up says so. */
  lemma CommitSucceedsExactlyWhen(withOutbox: bool, acts: seq<Action>, e: nat, m: Manifest, g: Grant)
    ensures var w := Run(withOutbox, acts);
            Succeeds(Asked(withOutbox, acts, e, m, g), |w.attempts|) <==> CanBeCarriedOut(w, e, m, g)
  {
    var w, v := Run(withOutbox, acts), Asked(withOutbox, acts, e, m, g);
    var x := SceneOf(v, |w.attempts|);
    EveryEntryHasItsCall(withOutbox, acts);
    SucceedsIsEverSuccessful(v, |w.attempts|);
    SucceedsExactlyWhen(x);
    SubmitsExactly(w, e, m, g, x);
  }

  /** And then it ends like this: the manifest COMMITTED in the store and in the engine's memory, the intent
      confirmed, one use of the grant spent and nothing in flight, the resolved amount consumed and nothing
      reserved, the payment with the provider, and the provider's reference recorded for the key. */
  lemma CarriedOutCommit(withOutbox: bool, acts: seq<Action>, e: nat, m: Manifest, g: Grant) returns (n: nat)
    requires CanBeCarriedOut(Run(withOutbox, acts), e, m, g)
    ensures var s, i := Run(withOutbox, acts).shared, |Run(withOutbox, acts).attempts|;
            var v := RunFrom(Asked(withOutbox, acts, e, m, g), Steps(i, n));
            var x := SceneOf(Asked(withOutbox, acts, e, m, g), i);
            var (after, reply) := Pay.Submit(s.provider, m.key, m.payment);
            && i < |v.attempts| && v.attempts[i].at.Done? && v.attempts[i].succeeded
            && m.id in Memory(v, e) && Memory(v, e)[m.id] == Committed
            && reply.Answer? && reply.record.settled
            && var outcome := if reply.record.reference == "" then "committed" else reply.record.reference;
               v.shared ==
                 StoresLeft(x, Committed, Outbox.Confirmed, 1, s.grants.outcomes[m.key := outcome],
                            Consumed(s.ledger, m, g), after)
  {
    var w, v := Run(withOutbox, acts), Asked(withOutbox, acts, e, m, g);
    var i := |w.attempts|;
    var x := SceneOf(v, i);
    EveryEntryHasItsCall(withOutbox, acts);
    SubmitsExactly(w, e, m, g, x);
    var y := SuccessSolo(x, ReplyTo(x).reference);
    n := 18;
    var path :| Quiet(path) && |path| == n + 1 && path[0] == x && path[n] == y;
    PathIsRun(v, i, path, n);
  }
}
