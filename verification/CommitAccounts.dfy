/** What one call does to the stores: the change that its own steps make to the reserved and consumed
    amounts of every budget and to the reservation and the uses of every grant. */
module CommitAccounts {
  import opened Wrappers
  import opened Faults
  import opened CommitProtocol
  import opened CommitInvariants
  import opened CommitRuns
  import opened CommitTheorems
  import Budget
  import GrantStore

  /** The action is a step of call i. */
  predicate StepOf(act: Action, i: nat) {
    act.Advance? && act.i == i
  }

  /** The sum, over the steps of call i in a run, of what the stores read after and before the step. */
  function NetChange(w: World, acts: seq<Action>, i: nat, m: Meter): int {
    if acts == [] then 0
    else
      var n := |acts| - 1;
      var before := RunFrom(w, acts[..n]);
      NetChange(w, acts[..n], i, m) +
      if StepOf(acts[n], i) then Reading(Perform(before, acts[n]).shared, m) - Reading(before.shared, m) else 0
  }

  /** A step moves the stores by what it moves the account of its call. */
  lemma StepIsMetered(w: World, i: nat, fault: Fault, m: Meter)
    requires Inv(w) && i < |w.attempts|
    ensures var v := Perform(w, Advance(i, fault));
            Reading(v.shared, m) - Reading(w.shared, m) == Share(v.attempts[i], m) - Share(w.attempts[i], m)
  {
    var x := SceneOf(w, i);
    SceneReady(w, i);
    MoveSound(x, fault);
    var move := NextMove(x, fault);
    OpMetered(w.shared, move.op, m);
    AccountMetered(x.a, AttemptAfter(x.a, move), move.op, m);
  }

  function ShareAt(w: World, i: nat, m: Meter): int {
    if i < |w.attempts| then Share(w.attempts[i], m) else 0
  }

  /** One action changes the share of a call exactly by what the call's own step does to the stores. */
  lemma ActionIsMetered(w: World, act: Action, i: nat, m: Meter)
    requires Inv(w)
    ensures ShareAt(Perform(w, act), i, m) - ShareAt(w, i, m) ==
              if StepOf(act, i) then Reading(Perform(w, act).shared, m) - Reading(w.shared, m) else 0
  {
    if StepOf(act, i) && i < |w.attempts| {
      StepIsMetered(w, i, act.fault, m);
    } else if act.Start? {
      LaunchFits(w.shared, act.engine, act.job);
    }
  }

  /** Over a run, what the steps of a call did to the stores is the change of its account. */
  lemma {:induction false} NetChangeIsShare(w: World, acts: seq<Action>, i: nat, m: Meter)
    requires Inv(w)
    ensures NetChange(w, acts, i, m) == ShareAt(RunFrom(w, acts), i, m) - ShareAt(w, i, m)
    decreases |acts|
  {
    if acts != [] {
      var n := |acts| - 1;
      NetChangeIsShare(w, acts[..n], i, m);
      RunKeeps(w, acts[..n]);
      ActionIsMetered(RunFrom(w, acts[..n]), acts[n], i, m);
    }
  }

  /** The net effect of call i of a run from empty stores. */
  function Net(withOutbox: bool, acts: seq<Action>, i: nat, m: Meter): int {
    NetChange(Initial(withOutbox), acts, i, m)
  }

  lemma NetIsShare(withOutbox: bool, acts: seq<Action>, i: nat, m: Meter)
    requires i < |Run(withOutbox, acts).attempts|
    ensures Net(withOutbox, acts, i, m) == Share(Run(withOutbox, acts).attempts[i], m)
    ensures AttemptFits(Run(withOutbox, acts).shared, Run(withOutbox, acts).attempts[i])
  {
    InitialHolds(withOutbox);
    NetChangeIsShare(Initial(withOutbox), acts, i, m);
    Reachable(withOutbox, acts);
  }

  // ---------- exits ----------

  /** A finished commit that consumed: the amount resolved for its manifest on the budget it binds. */
  ghost predicate Resolved(s: Shared, a: Attempt, b: string, amount: int) {
    && a.job.Commit? && a.job.grant.budgetId == Some(b) && b in s.ledger.budgets
    && Budget.ConsumeAmount(s.ledger.budgets[b], a.job.manifest.cost) == Ok(amount)
  }

  /** Every exit of commit in order, returning or raising, has left the stores like this by its own
      steps: no budget and no grant is held for it; the resolved amount has been added to what its
      budget has consumed iff the adapter reported success to it, and nothing to any other budget; one
      use of its grant has been added iff it succeeded or was replayed, which exclude one another. */
  lemma EveryExitSettlesItsAccount(withOutbox: bool, acts: seq<Action>, i: nat, b: string, g: string)
    requires i < |Run(withOutbox, acts).attempts|
    requires Run(withOutbox, acts).attempts[i].at.Done? && Run(withOutbox, acts).attempts[i].job.Commit?
    ensures var a := Run(withOutbox, acts).attempts[i];
            && Net(withOutbox, acts, i, BudgetHeld(b)) == 0
            && Net(withOutbox, acts, i, GrantHeld(g)) == 0
            && (if a.succeeded && a.job.grant.budgetId == Some(b)
                then Resolved(Run(withOutbox, acts).shared, a, b, Net(withOutbox, acts, i, BudgetSpent(b)))
                else Net(withOutbox, acts, i, BudgetSpent(b)) == 0)
            && Net(withOutbox, acts, i, GrantUsed(g)) ==
                 (if (a.succeeded || a.replayed) && g == a.job.grant.id then 1 else 0)
            && !(a.succeeded && a.replayed)
  {
    NetIsShare(withOutbox, acts, i, BudgetHeld(b));
    NetIsShare(withOutbox, acts, i, BudgetSpent(b));
    NetIsShare(withOutbox, acts, i, GrantHeld(g));
    NetIsShare(withOutbox, acts, i, GrantUsed(g));
  }

  /** The points at which an uncaught raise leaves the budget reservation behind. A raise that lost its
      reply counts as one at the next point. */
  predicate LeavesBudget(p: Point) {
    p.ReservingGrant? || p.RefusedGrant? || p == Moving(Enter, Read) || p.UndoingGrant? || p.UndoingBudget? ||
    p.Consulting? || p.ReplayBudget? || p.FailingGrant? || p.FailingBudget? || p.SpendingBudget?
  }

  predicate LeavesGrant(p: Point) {
    p == Moving(Enter, Read) || p.UndoingGrant? || p.Consulting? || p.ReplayBudget? || p.ReplayIntent? ||
    p.ReplayGrant? || p.FailingGrant? || p.SpendingBudget? || p.ConfirmingIntent? || p.SpendingGrant?
  }

  /** The points an attempt can be thrown out at. */
  predicate ThrownFrom(p: Point) {
    !p.Validating? && !p.Calling? && !p.RecordingIntent? && !p.Checking? &&
    (p.Moving? ==> p.phase.Read?)
  }

  lemma PlanGoesOn(x: Scene)
    requires x.a.job.Commit? && !x.a.at.Moving? && !Handled(x.a.at) && !x.a.at.Thrown?
    ensures var m := CommitMove(x, x.a.job.manifest, x.a.job.grant);
            !m.next.Thrown? && (m.op.Skip? || m.op.Adopt? || ThrownFrom(m.next))
  {
  }

  ghost predicate ThrownWell(a: Attempt) {
    a.at.Thrown? ==> ThrownFrom(a.at.holding)
  }

  lemma NotThrown(x: Scene, fault: Fault)
    requires x.a.at.Moving? || (x.a.job.Commit? && Handled(x.a.at))
    ensures !NextMove(x, fault).next.Thrown?
  {
  }

  lemma ThrownStays(x: Scene, fault: Fault)
    requires x.a.at.Thrown? && x.a.job.Commit?
    ensures NextMove(x, fault) == Do(Skip, x.a.at)
  {
  }

  lemma OthersNotThrown(x: Scene, fault: Fault)
    requires !x.a.job.Commit? && !x.a.at.Thrown?
    ensures !NextMove(x, fault).next.Thrown?
  {
  }

  lemma StepThrowsWell(x: Scene, fault: Fault)
    requires ThrownWell(x.a) && (x.a.job.Commit? || !x.a.at.Thrown?)
    ensures ThrownWell(Step(x, fault).a) && (x.a.job.Commit? || !Step(x, fault).a.at.Thrown?)
  {
    if !x.a.job.Commit? {
      OthersNotThrown(x, fault);
    } else if x.a.at.Thrown? {
      ThrownStays(x, fault);
    } else if x.a.at.Moving? || Handled(x.a.at) {
      NotThrown(x, fault);
    } else {
      PlanGoesOn(x);
    }
  }

  lemma {:induction false} ThrownPoints(withOutbox: bool, acts: seq<Action>, i: nat)
    requires i < |Run(withOutbox, acts).attempts|
    ensures var a := Run(withOutbox, acts).attempts[i]; ThrownWell(a) && (a.job.Commit? || !a.at.Thrown?)
    decreases |acts|
  {
    var n := |acts| - 1;
    var v := Run(withOutbox, acts[..n]);
    if i < |v.attempts| {
      ThrownPoints(withOutbox, acts[..n], i);
      if StepOf(acts[n], i) {
        StepThrowsWell(SceneOf(v, i), acts[n].fault);
      }
    }
  }

  /** An exit by an uncaught raise leaves the charge reserved exactly when it was thrown out at one of
      the points of LeavesBudget, and the grant reserved exactly at one of those of LeavesGrant. */
  lemma ThrownExitLeavesExactly(withOutbox: bool, acts: seq<Action>, i: nat, b: string, g: string)
    requires i < |Run(withOutbox, acts).attempts| && Run(withOutbox, acts).attempts[i].at.Thrown?
    ensures var a := Run(withOutbox, acts).attempts[i];
            && a.job.Commit?
            && (if LeavesBudget(a.at.holding) && a.job.grant.budgetId == Some(b)
                then Resolved(Run(withOutbox, acts).shared, a, b, Net(withOutbox, acts, i, BudgetHeld(b)))
                else Net(withOutbox, acts, i, BudgetHeld(b)) == 0)
            && Net(withOutbox, acts, i, GrantHeld(g)) ==
                 (if LeavesGrant(a.at.holding) && g == a.job.grant.id then 1 else 0)
  {
    NetIsShare(withOutbox, acts, i, BudgetHeld(b));
    NetIsShare(withOutbox, acts, i, GrantHeld(g));
    ThrownPoints(withOutbox, acts, i);
  }

  /** Every step of call i in a run went without a fault. */
  ghost predicate Undisturbed(acts: seq<Action>, i: nat) {
    forall k :: 0 <= k < |acts| && StepOf(acts[k], i) ==> acts[k].fault.Fine?
  }

  lemma FineStepIsNotThrown(x: Scene)
    requires !x.a.at.Thrown?
    ensures !NextMove(x, Fine).next.Thrown?
  {
    if x.a.job.Commit? && !x.a.at.Moving? && !Handled(x.a.at) {
      PlanGoesOn(x);
    }
  }

  /** A call none of whose own calls raises leaves the engine in order, whatever befalls the others. */
  lemma {:induction false} UndisturbedIsNeverThrown(withOutbox: bool, acts: seq<Action>, i: nat)
    requires i < |Run(withOutbox, acts).attempts| && Undisturbed(acts, i)
    ensures !Run(withOutbox, acts).attempts[i].at.Thrown?
    decreases |acts|
  {
    var n := |acts| - 1;
    var v := Run(withOutbox, acts[..n]);
    if i < |v.attempts| {
      UndisturbedIsNeverThrown(withOutbox, acts[..n], i);
      if StepOf(acts[n], i) {
        FineStepIsNotThrown(SceneOf(v, i));
      }
    }
  }
}
