/** Safety of whole runs of the commit protocol, for every interleaving of any number of engines,
    whichever calls to stores, journal and adapter raise, with or without taking effect. */
module CommitTheorems {
  import opened Wrappers
  import opened Faults
  import opened Lifecycle
  import opened CommitProtocol
  import opened CommitInvariants
  import opened CommitRuns
  import Budget
  import GrantStore
  import Outbox
  import Pay = PaymentSimulator
  import Revocation

  // ---------- what only grows ----------

  /** The points that follow the adapter call or stand for giving up on it. */
  predicate Beyond(at: Point) {
    at.FailingGrant? || at.FailingBudget? || at.FailingIntent? || at.SpendingBudget? || at.ConfirmingIntent? ||
    at.SpendingGrant? || at.Done? || at.Thrown? || at.Stuck? || (at.Moving? && (at.goal == Settle || at.goal == Fail))
  }

  ghost predicate StoresLater(s: Shared, t: Shared) {
    && (forall id ::
          || Stored(s.lifecycle, id) == Stored(t.lifecycle, id)
          || Height(Stored(s.lifecycle, id)) < Height(Stored(t.lifecycle, id)))
    && s.grants.outcomes.Keys <= t.grants.outcomes.Keys
    && (forall id :: GrantStore.IsRevoked(s.grants, id) ==> GrantStore.IsRevoked(t.grants, id))
    && s.outbox.Some? == t.outbox.Some?
    && (s.outbox.Some? ==>
          forall key :: key in s.outbox.value && s.outbox.value[key].status == Outbox.Abandoned ==>
            key in t.outbox.value && t.outbox.value[key].status == Outbox.Abandoned)
    && Pay.Extends(s.provider, t.provider)
  }

  predicate AttemptLater(a: Attempt, b: Attempt) {
    && b.job == a.job && b.engine == a.engine
    && (a.entered ==> b.entered)
    && (a.job.Commit? && Beyond(a.at) ==> Beyond(b.at))
  }

  ghost predicate Later(w: World, v: World) {
    && StoresLater(w.shared, v.shared)
    && |w.attempts| <= |v.attempts|
    && forall i :: 0 <= i < |w.attempts| ==> AttemptLater(w.attempts[i], v.attempts[i])
  }

  lemma OpLater(s: Shared, op: Op)
    requires StoresSound(s) && Enabled(s, op)
    ensures StoresLater(s, SharedAfter(s, op))
  {
    if s.outbox.Some? {
      OpOutboxLater(s, op);
    }
    OpGrantsLater(s, op);
    OpLifecycleLater(s, op);
    if op.Pass? {
      Pay.SubmitKeeps(s.provider, op.key, op.payment);
    }
  }

  lemma OpLifecycleLater(s: Shared, op: Op)
    requires Enabled(s, op)
    ensures var t := SharedAfter(s, op).lifecycle;
            forall id :: Stored(s.lifecycle, id) == Stored(t, id)
                || Height(Stored(s.lifecycle, id)) < Height(Stored(t, id))
  {
  }

  lemma OpGrantsLater(s: Shared, op: Op)
    ensures s.grants.outcomes.Keys <= SharedAfter(s, op).grants.outcomes.Keys
    ensures forall id :: GrantStore.IsRevoked(s.grants, id) ==> GrantStore.IsRevoked(SharedAfter(s, op).grants, id)
  {
  }

  lemma OpOutboxLater(s: Shared, op: Op)
    requires s.outbox.Some?
    ensures var t := SharedAfter(s, op);
            t.outbox.Some? &&
            forall key :: key in s.outbox.value && s.outbox.value[key].status == Outbox.Abandoned ==>
              key in t.outbox.value && t.outbox.value[key].status == Outbox.Abandoned
  {
  }

  lemma BeyondStays(x: Scene, fault: Fault)
    requires x.a.job.Commit? && Beyond(x.a.at)
    ensures Beyond(NextMove(x, fault).next)
  {
  }

  lemma AdvanceLater(w: World, i: nat, fault: Fault)
    requires Inv(w) && i < |w.attempts|
    ensures Later(w, Perform(w, Advance(i, fault)))
  {
    var x := SceneOf(w, i);
    SceneReady(w, i);
    MoveSound(x, fault);
    OpLater(w.shared, NextMove(x, fault).op);
    if x.a.job.Commit? && Beyond(x.a.at) {
      BeyondStays(x, fault);
    }
  }

  lemma OutsideLater(s: Shared, act: Action)
    requires StoresSound(s)
    ensures StoresLater(s, Outside(s, act))
  {
    if act.Fund? {
      Pay.FundKeeps(s.provider, act.account, act.units);
    } else if act.Submit? {
      Pay.SubmitKeeps(s.provider, act.key, act.payment);
    }
  }

  lemma PerformLater(w: World, act: Action)
    requires Inv(w)
    ensures Later(w, Perform(w, act))
  {
    if act.Advance? {
      if act.i < |w.attempts| {
        AdvanceLater(w, act.i, act.fault);
      }
    } else if !act.Start? {
      OutsideLater(w.shared, act);
    }
  }

  lemma LaterTransitive(u: World, v: World, w: World)
    requires Later(u, v) && Later(v, w)
    ensures Later(u, w)
  {
    forall i | 0 <= i < |u.attempts|
      ensures AttemptLater(u.attempts[i], w.attempts[i])
    {
      assert AttemptLater(u.attempts[i], v.attempts[i]) && AttemptLater(v.attempts[i], w.attempts[i]);
    }
  }

  lemma {:induction false} RunLater(w: World, acts: seq<Action>)
    requires Inv(w)
    ensures Later(w, RunFrom(w, acts))
    decreases |acts|
  {
    if acts != [] {
      var v := RunFrom(w, acts[..|acts| - 1]);
      RunLater(w, acts[..|acts| - 1]);
      RunKeeps(w, acts[..|acts| - 1]);
      PerformLater(v, acts[|acts| - 1]);
      LaterTransitive(w, v, RunFrom(w, acts));
    }
  }

  /** A run can be cut anywhere. */
  lemma {:induction false} RunSplits(w: World, before: seq<Action>, after: seq<Action>)
    ensures RunFrom(w, before + after) == RunFrom(RunFrom(w, before), after)
    decreases |after|
  {
    if after == [] {
      assert before + after == before;
    } else {
      var n := |after| - 1;
      RunSplits(w, before, after[..n]);
      assert (before + after)[..|before + after| - 1] == before + after[..n];
    }
  }

  // ---------- the lifecycle ----------

  function StateAt(withOutbox: bool, acts: seq<Action>, id: string): State {
    Stored(Run(withOutbox, acts).shared.lifecycle, id)
  }

  /** The states stored for a manifest over a run, repetitions left out. */
  function History(withOutbox: bool, acts: seq<Action>, id: string): seq<State> {
    if acts == [] then [Proposed]
    else
      var before := History(withOutbox, acts[..|acts| - 1], id);
      var state := StateAt(withOutbox, acts, id);
      if state == StateAt(withOutbox, acts[..|acts| - 1], id) then before else before + [state]
  }

  lemma Reachable(withOutbox: bool, acts: seq<Action>)
    ensures Inv(Run(withOutbox, acts))
  {
    InitialHolds(withOutbox);
    RunKeeps(Initial(withOutbox), acts);
  }

  /** An action leaves the stored state alone or moves it along a legal edge. */
  lemma ActionFollowsEdge(w: World, act: Action, id: string)
    requires Inv(w)
    ensures var s, t := Stored(w.shared.lifecycle, id), Stored(Perform(w, act).shared.lifecycle, id);
            s == t || Legal(s, t)
  {
    if act.Advance? && act.i < |w.attempts| {
      SceneReady(w, act.i);
      MoveSound(SceneOf(w, act.i), act.fault);
    }
  }

  lemma LastActionFollowsEdge(withOutbox: bool, acts: seq<Action>, id: string)
    requires acts != []
    ensures var s, t := StateAt(withOutbox, acts[..|acts| - 1], id), StateAt(withOutbox, acts, id);
            s == t || Legal(s, t)
  {
    var before := acts[..|acts| - 1];
    Reachable(withOutbox, before);
    ActionFollowsEdge(Run(withOutbox, before), acts[|acts| - 1], id);
  }

  lemma PathExtends(h: seq<State>, state: State)
    requires h != [] && LegalPath(h) && Legal(h[|h| - 1], state)
    ensures LegalPath(h + [state])
  {
  }

  /** Whatever the engines do, the states stored for a manifest form a legal path from PROPOSED. */
  lemma {:induction false} StoredStatesFollowLegalPath(withOutbox: bool, acts: seq<Action>, id: string)
    ensures var h := History(withOutbox, acts, id);
            h != [] && h[0] == Proposed && h[|h| - 1] == StateAt(withOutbox, acts, id) && LegalPath(h)
    decreases |acts|
  {
    if acts != [] {
      var before := acts[..|acts| - 1];
      StoredStatesFollowLegalPath(withOutbox, before, id);
      LastActionFollowsEdge(withOutbox, acts, id);
      if StateAt(withOutbox, acts, id) != StateAt(withOutbox, before, id) {
        PathExtends(History(withOutbox, before, id), StateAt(withOutbox, acts, id));
      }
    }
  }

  /** No state, and so COMMITTING in particular, is entered twice. */
  lemma EveryStateIsEnteredAtMostOnce(withOutbox: bool, acts: seq<Action>, id: string, i: nat, j: nat)
    requires i < j < |History(withOutbox, acts, id)|
    ensures History(withOutbox, acts, id)[i] != History(withOutbox, acts, id)[j]
  {
    StoredStatesFollowLegalPath(withOutbox, acts, id);
    LegalPathClimbs(History(withOutbox, acts, id), i, j);
  }

  /** In every run a manifest that is stored as COMMITTED has gone through every state on the one way
      there, PREPARED, SEALED, AUTHORIZED and COMMITTING, in this order and directly. */
  lemma CommittedWasAuthorized(withOutbox: bool, acts: seq<Action>, id: string, j: nat)
    requires j < |History(withOutbox, acts, id)| && History(withOutbox, acts, id)[j] == Committed
    ensures History(withOutbox, acts, id)[..j + 1] == WayToCommitted
  {
    StoredStatesFollowLegalPath(withOutbox, acts, id);
    CommittedPath(History(withOutbox, acts, id), j);
  }

  /** What one step of a commit may do to the stored state of its manifest. */
  predicate WritesWhatHappened(a: Attempt, before: State, after: State) {
    || before == after
    || (after == Committing && before == Authorized && !a.entered && !a.succeeded && !a.replayed)
    || (after == Committed && before == Committing && a.entered && (a.succeeded || a.replayed))
    || (after == Failed && a.entered && !a.succeeded && !a.replayed)
  }

  lemma CommitStepWrites(x: Scene, fault: Fault, other: string)
    requires Ready(x) && x.a.job.Commit?
    ensures var id, table := x.a.job.manifest.id, Step(x, fault).shared.lifecycle;
            && WritesWhatHappened(x.a, Stored(x.shared.lifecycle, id), Stored(table, id))
            && (other != id ==> Stored(table, other) == Stored(x.shared.lifecycle, other))
  {
    MoveSound(x, fault);
    var op := NextMove(x, fault).op;
    if op.Store? {
      SourcesExactly(Stored(x.shared.lifecycle, op.id), op.target);
    }
  }

  /** Over all runs, whatever else happens: a commit changes the stored state of its own manifest alone. It
      stores COMMITTING once, before anything is known; COMMITTED only after the adapter reported success
      to it or it was replayed; and FAILED only when neither is the case. */
  lemma CommitWritesWhatHappened(withOutbox: bool, acts: seq<Action>, i: nat, fault: Fault, other: string)
    requires i < |Run(withOutbox, acts).attempts| && Run(withOutbox, acts).attempts[i].job.Commit?
    ensures var w := Run(withOutbox, acts);
            var id, table := w.attempts[i].job.manifest.id, Perform(w, Advance(i, fault)).shared.lifecycle;
            && WritesWhatHappened(w.attempts[i], Stored(w.shared.lifecycle, id), Stored(table, id))
            && (other != id ==> Stored(table, other) == Stored(w.shared.lifecycle, other))
  {
    Reachable(withOutbox, acts);
    SceneReady(Run(withOutbox, acts), i);
    CommitStepWrites(SceneOf(Run(withOutbox, acts), i), fault, other);
  }

  /** And recovery, over all runs, stores nothing but RECOVERED_COMMITTED over FAILED. */
  lemma RecoveryWritesOverFailed(withOutbox: bool, acts: seq<Action>, i: nat, fault: Fault, id: string)
    requires i < |Run(withOutbox, acts).attempts| && Run(withOutbox, acts).attempts[i].job.Recover?
    ensures var w := Run(withOutbox, acts);
            var before, after := w.shared.lifecycle, Perform(w, Advance(i, fault)).shared.lifecycle;
            || Stored(after, id) == Stored(before, id)
            || (id == w.attempts[i].job.manifest.id && Stored(before, id) == Failed
                && Stored(after, id) == RecoveredCommitted)
  {
    Reachable(withOutbox, acts);
    SceneReady(Run(withOutbox, acts), i);
    RecoveryStepWrites(SceneOf(Run(withOutbox, acts), i), fault, id);
  }

  lemma RecoveryStepWrites(x: Scene, fault: Fault, id: string)
    requires Ready(x) && x.a.job.Recover?
    ensures var table := Step(x, fault).shared.lifecycle;
            || Stored(table, id) == Stored(x.shared.lifecycle, id)
            || (id == x.a.job.manifest.id && Stored(x.shared.lifecycle, id) == Failed
                && Stored(table, id) == RecoveredCommitted)
  {
    MoveSound(x, fault);
    var op := NextMove(x, fault).op;
    if op.Store? {
      SourcesExactly(Stored(x.shared.lifecycle, op.id), op.target);
    }
  }

  /** The action is the call of `adapter.commit` for a manifest id. */
  ghost predicate CallsAdapter(w: World, act: Action, id: string) {
    && act.Advance? && act.i < |w.attempts|
    && w.attempts[act.i].job.Commit? && w.attempts[act.i].job.manifest.id == id
    && w.attempts[act.i].at.Calling?
  }

  /** The attempt has had its one adapter call. */
  predicate HasCalled(a: Attempt, id: string) {
    a.job.Commit? && a.job.manifest.id == id && a.entered && Beyond(a.at)
  }

  lemma CallIsRemembered(w: World, act: Action, id: string)
    requires Inv(w) && CallsAdapter(w, act, id)
    ensures HasCalled(Perform(w, act).attempts[act.i], id)
  {
    assert AttemptFits(w.shared, w.attempts[act.i]);
  }

  lemma CallingHasEntered(s: Shared, a: Attempt)
    requires AttemptFits(s, a) && a.at.Calling?
    ensures a.entered
  {
  }

  lemma NoSecondCall(v: World, w: World, i: nat, act: Action, id: string)
    requires Later(v, w) && Inv(w) && i < |v.attempts| && HasCalled(v.attempts[i], id)
    ensures !CallsAdapter(w, act, id)
  {
    assert AttemptLater(v.attempts[i], w.attempts[i]);
    if CallsAdapter(w, act, id) {
      CallingHasEntered(w.shared, w.attempts[act.i]);
      CallsEnterApart(w.attempts, i, act.i);
    }
  }

  /** In every run the adapter's commit is called at most once per manifest id. */
  lemma AdapterIsCalledAtMostOnce(withOutbox: bool, before: seq<Action>, first: Action, between: seq<Action>,
                                  second: Action, id: string)
    requires CallsAdapter(Run(withOutbox, before), first, id)
    ensures !CallsAdapter(Run(withOutbox, before + [first] + between), second, id)
  {
    var w := Run(withOutbox, before);
    Reachable(withOutbox, before);
    PerformKeeps(w, first);
    CallIsRemembered(w, first, id);
    var v := Perform(w, first);
    assert (before + [first])[..|before|] == before;
    assert v == Run(withOutbox, before + [first]);
    RunSplits(Initial(withOutbox), before + [first], between);
    RunKeeps(v, between);
    RunLater(v, between);
    NoSecondCall(v, RunFrom(v, between), first.i, second, id);
  }

  /** In every run a call that stands at the adapter has everything in place: its own intent is on record and
      not abandoned, its manifest has been stored as COMMITTING, its grant is reserved, and the amount
      resolved for it is reserved on the budget that the grant binds. */
  lemma AdapterCallIsPrepared(withOutbox: bool, acts: seq<Action>, i: nat)
    requires i < |Run(withOutbox, acts).attempts| && Run(withOutbox, acts).attempts[i].at.Calling?
    ensures var s, a := Run(withOutbox, acts).shared, Run(withOutbox, acts).attempts[i];
            && a.job.Commit?
            && var m, g := a.job.manifest, a.job.grant;
               && (s.outbox.Some? ==>
                     && m.key in s.outbox.value && s.outbox.value[m.key].manifest == m
                     && s.outbox.value[m.key].status != Outbox.Abandoned)
               && Height(Stored(s.lifecycle, m.id)) >= Height(Committing)
               && GrantStore.Reserved(s.grants, g.id)
               && (g.budgetId.Some? ==>
                     && g.budgetId.value in s.ledger.budgets
                     && var amount := Budget.ConsumeAmount(s.ledger.budgets[g.budgetId.value], m.cost);
                        amount.Ok? && amount.value <= Budget.Held(s.ledger, g.budgetId.value))
  {
    Reachable(withOutbox, acts);
    SceneReady(Run(withOutbox, acts), i);
    CallingIsPrepared(SceneOf(Run(withOutbox, acts), i));
  }

  lemma CallingIsPrepared(x: Scene)
    requires Ready(x) && x.a.at.Calling?
    ensures x.a.job.Commit? && x.a.entered && IntentStands(x.shared, x.a) && ProfileOf(x.a.at).open
    ensures Height(Stored(x.shared.lifecycle, x.a.job.manifest.id)) >= Height(Committing)
    ensures GrantStore.Reserved(x.shared.grants, x.a.job.grant.id) && ChargeFits(x.shared, x.a)
    ensures x.a.charge.Some? == x.a.job.grant.budgetId.Some?
    ensures x.a.charge.Some? ==> x.a.charge.value.1 <= Budget.Held(x.shared.ledger, x.a.charge.value.0)
  {
  }

  // ---------- budgets and grants ----------

  /** In every reachable world: what the ledger holds in reserve is what the calls in flight
      have reserved, what it has consumed is what the successful calls were charged, the two
      stay within the limit; a grant is reserved exactly while one call holds it, and its uses
      are the calls that succeeded or were replayed, never more than allowed; and no call has
      run into an error while releasing or finalizing. */
  lemma ReservationsAccountForCalls(withOutbox: bool, acts: seq<Action>)
    ensures var w := Run(withOutbox, acts);
            && (forall b :: b in w.shared.ledger.budgets ==>
                  && Budget.Held(w.shared.ledger, b) == Total(w.attempts, BudgetHeld(b))
                  && Budget.Spent(w.shared.ledger, b) == Total(w.attempts, BudgetSpent(b))
                  && Budget.Held(w.shared.ledger, b) + Budget.Spent(w.shared.ledger, b)
                       <= w.shared.ledger.budgets[b].Limit())
            && (forall g :: Total(w.attempts, GrantHeld(g)) == if GrantStore.Reserved(w.shared.grants, g) then 1 else 0)
            && (forall g :: Total(w.attempts, GrantUsed(g)) == GrantStore.Uses(w.shared.grants, g))
            && (forall g :: g in w.shared.grants.slots ==>
                w.shared.grants.slots[g].uses <= w.shared.grants.slots[g].maxUses)
            && (forall i :: 0 <= i < |w.attempts| ==> !w.attempts[i].at.Stuck?)
  {
    var w := Run(withOutbox, acts);
    Reachable(withOutbox, acts);
    forall b | b in w.shared.ledger.budgets
      ensures Budget.Held(w.shared.ledger, b) == Total(w.attempts, BudgetHeld(b))
      ensures Budget.Spent(w.shared.ledger, b) == Total(w.attempts, BudgetSpent(b))
    {
      assert Total(w.attempts, BudgetHeld(b)) == Reading(w.shared, BudgetHeld(b));
      assert Total(w.attempts, BudgetSpent(b)) == Reading(w.shared, BudgetSpent(b));
    }
    forall g
      ensures Total(w.attempts, GrantHeld(g)) == Reading(w.shared, GrantHeld(g))
      ensures Total(w.attempts, GrantUsed(g)) == Reading(w.shared, GrantUsed(g))
    {
    }
    forall i | 0 <= i < |w.attempts|
      ensures !w.attempts[i].at.Stuck?
    {
      assert AttemptFits(w.shared, w.attempts[i]);
    }
  }

  lemma {:induction false} NothingInFlight(attempts: seq<Attempt>, m: Meter)
    requires forall i :: 0 <= i < |attempts| ==> attempts[i].at.Done?
    requires m.BudgetHeld? || m.GrantHeld?
    ensures Total(attempts, m) == 0
    decreases |attempts|
  {
    if attempts != [] {
      NothingInFlight(attempts[..|attempts| - 1], m);
    }
  }

  /** When every call has come to its end, and none was thrown out by a store that raised, no
      reservation is left behind anywhere. */
  lemma QuietStoresHoldNothing(withOutbox: bool, acts: seq<Action>, b: string, g: string)
    requires forall i :: 0 <= i < |Run(withOutbox, acts).attempts| ==> Run(withOutbox, acts).attempts[i].at.Done?
    ensures Budget.Held(Run(withOutbox, acts).shared.ledger, b) == 0
    ensures !GrantStore.Reserved(Run(withOutbox, acts).shared.grants, g)
  {
    var w := Run(withOutbox, acts);
    Reachable(withOutbox, acts);
    NothingInFlight(w.attempts, BudgetHeld(b));
    NothingInFlight(w.attempts, GrantHeld(g));
    assert Total(w.attempts, BudgetHeld(b)) == Reading(w.shared, BudgetHeld(b));
    assert Total(w.attempts, GrantHeld(g)) == Reading(w.shared, GrantHeld(g));
  }

  // ---------- money ----------

  /** In every run, for every account: what was funded is the balance plus the totals of the
      settled payments. Each key is debited at most once, and exactly when its record is settled. */
  lemma MoneyIsConserved(withOutbox: bool, acts: seq<Action>, account: string)
    ensures var p := Run(withOutbox, acts).shared.provider;
            Pay.Conserving(p)
            && Pay.Funded(p.postings, account) == Pay.Balance(p, account) + Pay.Debited(p.postings, account)
  {
    Reachable(withOutbox, acts);
  }

  /** The provider's record of a key never changes once it is written. */
  lemma RecordsNeverChange(withOutbox: bool, before: seq<Action>, after: seq<Action>, key: string)
    requires key in Run(withOutbox, before).shared.provider.payments
    ensures key in Run(withOutbox, before + after).shared.provider.payments
    ensures Run(withOutbox, before + after).shared.provider.payments[key] ==
              Run(withOutbox, before).shared.provider.payments[key]
  {
    Reachable(withOutbox, before);
    RunSplits(Initial(withOutbox), before, after);
    RunLater(Run(withOutbox, before), after);
  }

  /** A call that reports success, first hand or by replay, has a settled payment behind it,
      debited once. */
  lemma SuccessIsBackedBySettlement(withOutbox: bool, acts: seq<Action>, i: nat)
    requires i < |Run(withOutbox, acts).attempts|
    requires var a := Run(withOutbox, acts).attempts[i]; a.job.Commit? && (a.succeeded || a.replayed)
    ensures var w := Run(withOutbox, acts);
            var key := w.attempts[i].job.manifest.key;
            && SettledKey(w.shared, key) && (exists n :: Pay.DebitFor(w.shared.provider.postings, n, key))
            && var postings := w.shared.provider.postings;
               forall n, m :: Pay.DebitFor(postings, n, key) && Pay.DebitFor(postings, m, key) ==> n == m
  {
    Reachable(withOutbox, acts);
    assert AttemptFits(Run(withOutbox, acts).shared, Run(withOutbox, acts).attempts[i]);
  }

  // ---------- calls that start late ----------

  predicate ForKey(a: Attempt, key: string) {
    a.job.Commit? && a.job.manifest.key == key
  }

  /** The call neither is about to call the adapter nor has been told of a success by it. */
  predicate KeepsOffAdapter(a: Attempt) {
    !a.at.Validating? && !a.at.Calling? && !a.succeeded
  }

  lemma TransitionStaysOff(x: Scene, fault: Fault)
    requires x.a.at.Moving? && KeepsOffAdapter(x.a)
    ensures KeepsOffAdapter(Step(x, fault).a)
  {
  }

  lemma PlanStaysOff(x: Scene)
    requires x.a.job.Commit? && x.a.job.manifest.key in x.shared.grants.outcomes && KeepsOffAdapter(x.a)
    requires !x.a.at.Moving? && !Handled(x.a.at)
    ensures var m := CommitMove(x, x.a.job.manifest, x.a.job.grant);
            !m.next.Validating? && !m.next.Calling? && !m.op.Pass?
  {
  }

  lemma ReplayStaysOff(x: Scene, fault: Fault)
    requires x.a.job.Commit? && x.a.job.manifest.key in x.shared.grants.outcomes && KeepsOffAdapter(x.a)
    ensures KeepsOffAdapter(Step(x, fault).a)
  {
    if x.a.at.Moving? {
      TransitionStaysOff(x, fault);
    } else if !Handled(x.a.at) {
      PlanStaysOff(x);
    }
  }

  lemma ActionKeepsOff(w: World, act: Action, key: string, i: nat)
    requires key in w.shared.grants.outcomes
    requires i < |w.attempts| ==> ForKey(w.attempts[i], key) ==> KeepsOffAdapter(w.attempts[i])
    ensures i < |Perform(w, act).attempts| ==> ForKey(Perform(w, act).attempts[i], key) ==>
              KeepsOffAdapter(Perform(w, act).attempts[i])
  {
    if act.Advance? && act.i == i && i < |w.attempts| && ForKey(w.attempts[i], key) {
      ReplayStaysOff(SceneOf(w, i), act.fault);
    }
  }

  lemma {:induction false} LateCallsKeepOff(w: World, acts: seq<Action>, key: string, i: nat)
    requires Inv(w) && key in w.shared.grants.outcomes && |w.attempts| <= i
    ensures i < |RunFrom(w, acts).attempts| ==> ForKey(RunFrom(w, acts).attempts[i], key) ==>
              KeepsOffAdapter(RunFrom(w, acts).attempts[i])
    decreases |acts|
  {
    if acts != [] {
      var before := acts[..|acts| - 1];
      LateCallsKeepOff(w, before, key, i);
      RunLater(w, before);
      ActionKeepsOff(RunFrom(w, before), acts[|acts| - 1], key, i);
    }
  }

  /** Once recovery has found evidence for a key and recorded its outcome, no commit for that key
      that starts later ever calls the adapter. */
  lemma RecoveredKeyIsNeverResubmitted(withOutbox: bool, before: seq<Action>, after: seq<Action>, key: string, i: nat)
    requires key in Run(withOutbox, before).shared.grants.outcomes
    requires |Run(withOutbox, before).attempts| <= i < |Run(withOutbox, before + after).attempts|
    requires ForKey(Run(withOutbox, before + after).attempts[i], key)
    ensures !Run(withOutbox, before + after).attempts[i].at.Calling?
    ensures !Run(withOutbox, before + after).attempts[i].succeeded
  {
    Reachable(withOutbox, before);
    RunSplits(Initial(withOutbox), before, after);
    LateCallsKeepOff(Run(withOutbox, before), after, key, i);
  }

  /** The recovery step that records the outcome, and only after independent evidence. */
  lemma RecoveryRecordsEvidence(withOutbox: bool, acts: seq<Action>, i: nat, fault: Fault)
    requires i < |Run(withOutbox, acts).attempts|
    requires Run(withOutbox, acts).attempts[i].job.Recover? && Run(withOutbox, acts).attempts[i].at.Backfilling?
    ensures var m := Run(withOutbox, acts).attempts[i].job.manifest;
            var payments, key := Run(withOutbox, acts).shared.provider.payments, m.key;
            && key in payments && payments[key].settled
            && payments[key].amount == m.payment.amount && payments[key].beneficiary == m.payment.beneficiary
            && (fault.Raises? || key in Perform(Run(withOutbox, acts), Advance(i, fault)).shared.grants.outcomes)
  {
    Reachable(withOutbox, acts);
    BackfillingHasEvidence(Run(withOutbox, acts), i, fault);
  }

  lemma BackfillingHasEvidence(w: World, i: nat, fault: Fault)
    requires Inv(w) && i < |w.attempts| && w.attempts[i].job.Recover? && w.attempts[i].at.Backfilling?
    ensures var m := w.attempts[i].job.manifest;
            && Observed(w.shared, m)
            && (fault.Raises? || m.key in Perform(w, Advance(i, fault)).shared.grants.outcomes)
  {
    assert AttemptFits(w.shared, w.attempts[i]);
  }

  // ---------- revoked grants ----------

  /** Once a grant is revoked no call ever takes its reservation again, whichever engine runs it and
      however far it had come. */
  lemma RevokedGrantIsNeverReserved(withOutbox: bool, before: seq<Action>, after: seq<Action>, id: string, i: nat,
                                    fault: Fault)
    requires GrantStore.IsRevoked(Run(withOutbox, before).shared.grants, id)
    requires i < |Run(withOutbox, before + after).attempts|
    ensures var move := NextMove(SceneOf(Run(withOutbox, before + after), i), fault);
            move.op.AskGrant? && move.op.id == id ==> !move.op.granted
  {
    Reachable(withOutbox, before);
    RunSplits(Initial(withOutbox), before, after);
    RunLater(Run(withOutbox, before), after);
    Reachable(withOutbox, before + after);
    RevokedIsRefused(Run(withOutbox, before + after), id, i, fault);
  }

  lemma RevokedIsRefused(w: World, id: string, i: nat, fault: Fault)
    requires Inv(w) && GrantStore.IsRevoked(w.shared.grants, id) && i < |w.attempts|
    ensures var move := NextMove(SceneOf(w, i), fault);
            move.op.AskGrant? && move.op.id == id ==> !move.op.granted
  {
    SceneReady(w, i);
    MoveSound(SceneOf(w, i), fault);
  }

  // ---------- revoked ancestors ----------

  /** No action rewrites a lineage row that is already recorded. */
  ghost predicate KeepsLineage(acts: seq<Action>, g: GrantStore.Grants) {
    forall k :: 0 <= k < |acts| && acts[k].Lineage? ==> acts[k].grantId !in g.lineage
  }

  lemma OpKeepsLineage(s: Shared, op: Op)
    ensures SharedAfter(s, op).grants.lineage == s.grants.lineage
  {
  }

  lemma {:induction false} LineageIsKept(w: World, acts: seq<Action>)
    requires Inv(w) && KeepsLineage(acts, w.shared.grants)
    ensures Revocation.Later(w.shared.grants, RunFrom(w, acts).shared.grants)
    decreases |acts|
  {
    RunLater(w, acts);
    if acts != [] {
      var before, act := acts[..|acts| - 1], acts[|acts| - 1];
      LineageIsKept(w, before);
      var v := RunFrom(w, before);
      if act.Advance? && act.i < |v.attempts| {
        OpKeepsLineage(v.shared, NextMove(SceneOf(v, act.i), act.fault).op);
      }
    }
  }

  /** An ancestor of the grant, reached by recorded parents, is revoked. */
  ghost predicate AncestorRevoked(g: GrantStore.Grants, grant: Grant, climb: seq<string>) {
    && grant.parent.Some? && Revocation.Climb(g.lineage, grant.parent.value, climb)
    && GrantStore.IsRevoked(g, climb[|climb| - 1])
  }

  lemma AncestorDenies(w: World, v: World, manifest: Manifest, grant: Grant, climb: seq<string>)
    requires AncestorRevoked(w.shared.grants, grant, climb) && Revocation.Later(w.shared.grants, v.shared.grants)
    ensures !Admitted(v.shared, manifest, grant)
  {
    Revocation.RevokedAncestorBlocks(
      w.shared.grants, v.shared.grants, grant.id, grant.parent.value, climb, Revocation.MAX_DELEGATION_DEPTH);
  }

  /** The call has done nothing yet, or has been denied. */
  predicate AtTheDoor(a: Attempt) {
    (a.at.Checking? || a.at.Done?) && a.charge.None? && !a.entered && !a.succeeded && !a.replayed
  }

  lemma DeniedStaysAtTheDoor(x: Scene, fault: Fault)
    requires x.a.job.Commit? && AtTheDoor(x.a) && !Admitted(x.shared, x.a.job.manifest, x.a.job.grant)
    ensures AtTheDoor(Step(x, fault).a)
  {
  }

  lemma {:induction false} LateCallsAreDenied(w: World, acts: seq<Action>, climb: seq<string>, i: nat)
    requires Inv(w) && KeepsLineage(acts, w.shared.grants)
    requires |w.attempts| <= i < |RunFrom(w, acts).attempts| && RunFrom(w, acts).attempts[i].job.Commit?
    requires AncestorRevoked(w.shared.grants, RunFrom(w, acts).attempts[i].job.grant, climb)
    ensures AtTheDoor(RunFrom(w, acts).attempts[i])
    decreases |acts|
  {
    var before, act := acts[..|acts| - 1], acts[|acts| - 1];
    var v := RunFrom(w, before);
    RunKeeps(w, before);
    if i < |v.attempts| {
      PerformLater(v, act);
      var a := v.attempts[i];
      assert AttemptLater(a, RunFrom(w, acts).attempts[i]);
      LateCallsAreDenied(w, before, climb, i);
      LineageIsKept(w, before);
      AncestorDenies(w, v, a.job.manifest, a.job.grant, climb);
      if act.Advance? && act.i == i {
        DeniedStaysAtTheDoor(SceneOf(v, i), act.fault);
      }
    }
  }

  /** Once any ancestor of a grant is revoked, every commit with that grant that starts later ends
      at the checks: it reserves nothing and never reaches the adapter. */
  lemma RevokedAncestorDeniesLaterCommits(withOutbox: bool, before: seq<Action>, after: seq<Action>, climb: seq<string>,
                                          i: nat)
    requires KeepsLineage(after, Run(withOutbox, before).shared.grants)
    requires |Run(withOutbox, before).attempts| <= i < |Run(withOutbox, before + after).attempts|
    requires var a := Run(withOutbox, before + after).attempts[i];
             a.job.Commit? && AncestorRevoked(Run(withOutbox, before).shared.grants, a.job.grant, climb)
    ensures AtTheDoor(Run(withOutbox, before + after).attempts[i])
  {
    Reachable(withOutbox, before);
    RunSplits(Initial(withOutbox), before, after);
    LateCallsAreDenied(Run(withOutbox, before), after, climb, i);
  }
}
