/** The scene that one step leads to, written out for each point of the protocol, so that proofs about
    several steps need not unfold the whole machine at every one of them. */
module EngineSteps {
  import opened Wrappers
  import opened Faults
  import opened Lifecycle
  import opened CommitProtocol
  import Budget
  import GrantStore
  import Outbox
  import Pay = PaymentSimulator

  /** The same scene with the call at another point. */
  function Goes(x: Scene, at: Point): Scene {
    x.(a := x.a.(at := at))
  }

  // ---------- the lifecycle transition ----------

  lemma ReadStep(x: Scene, goal: Goal, fault: Fault)
    requires x.a.at == Moving(goal, Read)
    ensures var id, target := ManifestId(x.a.job), Target(x.a.job, goal);
            var from := Known(x, id);
            Step(x, fault) ==
              if !fault.Fine? then Goes(x, Raised(goal))
              else if !Legal(from, target) then Goes(x, Raised(goal)).(records := x.records[id := from])
              else Goes(x, Moving(goal, Look(from))).(records := x.records[id := target])
  {
  }

  lemma LookStep(x: Scene, goal: Goal, from: State, fault: Fault)
    requires x.a.at == Moving(goal, Look(from))
    ensures var id := ManifestId(x.a.job);
            Step(x, fault) ==
              if !fault.Fine? then Goes(x, Raised(goal)).(records := x.records[id := from])
              else if id !in x.shared.lifecycle && from == Proposed then Goes(x, Moving(goal, CasAbsent(from)))
              else Goes(x, Moving(goal, CasFrom(from)))
  {
  }

  lemma InsertStep(x: Scene, goal: Goal, from: State, fault: Fault)
    requires x.a.at == Moving(goal, CasAbsent(from))
    ensures var id, target := ManifestId(x.a.job), Target(x.a.job, goal);
            Step(x, fault) ==
              if id !in x.shared.lifecycle then Writing(x, goal, from, fault)
              else if fault.Fine? then Goes(x, Moving(goal, CasFrom(from)))
              else Goes(x, Raised(goal)).(records := x.records[id := from])
  {
  }

  lemma ReplaceStep(x: Scene, goal: Goal, from: State, fault: Fault)
    requires x.a.at == Moving(goal, CasFrom(from))
    ensures var id, target := ManifestId(x.a.job), Target(x.a.job, goal);
            Step(x, fault) ==
              if id in x.shared.lifecycle && x.shared.lifecycle[id] == from then Writing(x, goal, from, fault)
              else Goes(x, Raised(goal)).(records := x.records[id := from])
  {
  }

  /** What the second write does to the call and to memory, given whether it stored the state. */
  lemma ReplaceOutcome(x: Scene, goal: Goal, from: State, fault: Fault, stored: bool)
    requires x.a.at == Moving(goal, CasFrom(from))
    requires var id := ManifestId(x.a.job);
             stored <==> !fault.Raises? && id in x.shared.lifecycle && x.shared.lifecycle[id] == from
    ensures var y := Step(x, fault);
            && y.a == Landed(x.a, goal, stored, stored && fault.Fine?)
            && y.records == if stored && fault.Fine? then x.records else x.records[ManifestId(x.a.job) := from]
  {
    ReplaceStep(x, goal, from, fault);
  }

  /** The same for the first write, which leaves a row it finds to the second. */
  lemma InsertOutcome(x: Scene, goal: Goal, from: State, fault: Fault, stored: bool)
    requires x.a.at == Moving(goal, CasAbsent(from))
    requires stored <==> !fault.Raises? && ManifestId(x.a.job) !in x.shared.lifecycle
    ensures var y := Step(x, fault);
            && (fault.Fine? && !stored ==> y.a == x.a.(at := Moving(goal, CasFrom(from))))
            && (!fault.Fine? || stored ==> y.a == Landed(x.a, goal, stored, fault.Fine?))
            && y.records == if fault.Fine? then x.records else x.records[ManifestId(x.a.job) := from]
  {
    InsertStep(x, goal, from, fault);
  }

  lemma AuditStep(x: Scene, goal: Goal, fault: Fault)
    requires x.a.at == Moving(goal, Audit)
    ensures Step(x, fault) == Goes(x, if fault.Fine? then Returned(goal) else Raised(goal))
  {
  }

  /** A compare-and-set that finds what it expects: it goes through, it raises without effect, or it
      takes effect and raises, and then memory is put back all the same. */
  function Writing(x: Scene, goal: Goal, from: State, fault: Fault): Scene {
    var id, target := ManifestId(x.a.job), Target(x.a.job, goal);
    match fault
    case Fine => Scene(StoreState(x.shared, id, target), x.records, Entering(x.a, goal))
    case Raises => Goes(x, Raised(goal)).(records := x.records[id := from])
    case Late => Scene(StoreState(x.shared, id, target), x.records[id := from],
                       Entering(x.a, goal).(at := Raised(goal)))
  }

  function StoreState(s: Shared, id: string, target: State): Shared {
    s.(lifecycle := s.lifecycle[id := target])
  }

  /** The attempt after its compare-and-set went through. */
  function Entering(a: Attempt, goal: Goal): Attempt {
    a.(at := Moving(goal, Audit), entered := a.entered || goal == Enter)
  }

  /** The attempt after a compare-and-set that stored the state or not, and that returned or raised. */
  function Landed(a: Attempt, goal: Goal, stored: bool, returned: bool): Attempt {
    a.(at := if returned then Moving(goal, Audit) else Raised(goal), entered := a.entered || (stored && goal == Enter))
  }

  lemma LandedForgetsPoint(a: Attempt, at: Point, goal: Goal)
    ensures forall stored, returned :: Landed(a.(at := at), goal, stored, returned) == Landed(a, goal, stored, returned)
  {
  }

  // ---------- commit: the calls whose exceptions are handled ----------

  lemma CheckStep(x: Scene, fault: Fault)
    requires x.a.at == Checking && x.a.job.Commit?
    ensures Step(x, fault) ==
              Goes(x, if fault.Fine? && Admitted(x.shared, x.a.job.manifest, x.a.job.grant) then ReservingBudget
                   else Done)
  {
  }

  lemma IntendStep(x: Scene, fault: Fault)
    requires x.a.at == RecordingIntent && x.a.job.Commit?
    ensures var m, g := x.a.job.manifest, x.a.job.grant;
            Step(x, fault) ==
              if x.shared.outbox.None? then Goes(x, Consulting)
              else
                var r := Outbox.RecordPending(x.shared.outbox.value, m.key, g.id, m);
                if fault.Raises? || r.None? then Goes(x, UndoingGrant)
                else Goes(x, if fault.Fine? then Consulting else UndoingGrant).(shared := x.shared.(outbox := r))
  {
  }

  lemma ValidateStep(x: Scene, fault: Fault)
    requires x.a.at == Validating && x.a.job.Commit?
    ensures var m := x.a.job.manifest;
            Step(x, fault) ==
              Goes(x, if fault.Fine? && Pay.PreconditionsHold(x.shared.provider, m.payment, m.expectedBalance)
                      then Calling else FailingGrant(true))
  {
  }

  lemma CallStep(x: Scene, fault: Fault)
    requires x.a.at == Calling && x.a.job.Commit?
    ensures var m := x.a.job.manifest;
            var r := Pay.Submit(x.shared.provider, m.key, m.payment);
            Step(x, fault) ==
              if fault.Raises? then Goes(x, FailingGrant(false))
              else Scene(x.shared.(provider := r.0), x.records,
                         Called(x.a, if fault.Fine? then Pay.CommitReplyOf(r.1) else Pay.Exception))
  {
  }

  /** The attempt after the adapter came back. */
  function Called(a: Attempt, reply: Pay.CommitReply): Attempt {
    match reply
    case Success(reference) => a.(at := SpendingBudget(OutcomeRef(reference)), succeeded := true)
    case Failure => a.(at := FailingGrant(true))
    case Exception => a.(at := FailingGrant(false))
  }

  // ---------- commit: the calls whose exceptions are not ----------

  /** A call whose exception nothing catches, with y the scene it leads to: a raise without effect throws
      it out where it stands, a raise after the effect where it would have gone. */
  function Broken(x: Scene, y: Scene, writes: bool, fault: Fault): Scene {
    if fault.Fine? || (!fault.Raises? && y.a.at.Stuck?) then y
    else if fault.Raises? || !writes then Goes(x, Thrown(x.a.at))
    else Goes(y, Thrown(y.a.at))
  }

  /** A call that is made, and whose exception nothing catches. */
  predicate Exposed(x: Scene) {
    x.a.job.Commit? && !x.a.at.Moving? && !Handled(x.a.at) && !Silent(x, x.a.job.grant)
  }

  lemma ThrowStep(x: Scene)
    requires Exposed(x)
    ensures Step(x, Raises) == Goes(x, Thrown(x.a.at))
  {
  }

  /** Where an exposed call leads, from where it leads when it does not raise. */
  lemma ExposedStep(x: Scene, fault: Fault)
    requires Exposed(x)
    ensures var m := CommitMove(x, x.a.job.manifest, x.a.job.grant);
            Step(x, fault) == Broken(x, Carry(x, m), !m.op.Skip? && !m.op.Adopt?, fault)
  {
  }

  /** Where a call leads that is not made. */
  lemma SilentStep(x: Scene, fault: Fault)
    requires x.a.job.Commit? && !x.a.at.Moving? && !Handled(x.a.at) && Silent(x, x.a.job.grant)
    ensures Step(x, fault) == Carry(x, CommitMove(x, x.a.job.manifest, x.a.job.grant))
  {
  }

  function BudgetTaken(x: Scene): Scene
    requires x.a.job.Commit? && x.a.job.grant.budgetId.Some?
  {
    var id := x.a.job.grant.budgetId.value;
    var demand := BudgetDemand(x.shared.ledger, id, x.a.job.manifest);
    if demand.Err? then Goes(x, Done)
    else Scene(x.shared.(ledger := Budget.Reserve(x.shared.ledger, id, demand.value).value.0), x.records,
               x.a.(at := ReservingGrant, charge := Some((id, demand.value))))
  }

  lemma ReserveBudgetStep(x: Scene, fault: Fault)
    requires x.a.at == ReservingBudget && x.a.job.Commit?
    ensures Step(x, fault) ==
              if x.a.job.grant.budgetId.None? then Goes(x, ReservingGrant)
              else Broken(x, BudgetTaken(x), !BudgetTaken(x).a.at.Done?, fault)
  {
    if x.a.job.grant.budgetId.None? {
      SilentStep(x, fault);
    } else {
      ExposedStep(x, fault);
    }
  }

  /** The same for the call itself, given what was taken. */
  lemma ReserveBudgetOutcome(x: Scene, fault: Fault, charge: Option<(string, int)>)
    requires x.a.at == ReservingBudget && x.a.job.Commit? && x.a.job.grant.budgetId.Some? && !fault.Raises?
    requires var id := x.a.job.grant.budgetId.value;
             var demand := BudgetDemand(x.shared.ledger, id, x.a.job.manifest);
             charge == if demand.Ok? then Some((id, demand.value)) else None
    ensures var y := Step(x, fault);
            && y.records == x.records
            && (charge.None? ==> y.a == x.a.(at := if fault.Fine? then Done else Thrown(ReservingBudget)))
            && (charge.Some? ==>
                  y.a == x.a.(at := if fault.Fine? then ReservingGrant else Thrown(ReservingGrant), charge := charge))
  {
    ReserveBudgetStep(x, fault);
  }

  function GrantTaken(x: Scene): Scene
    requires x.a.job.Commit?
  {
    var r := GrantStore.Reserve(x.shared.grants, x.a.job.grant.id, x.a.job.grant.maxUses);
    Goes(x, if r.1 then Moving(Enter, Read) else RefusedGrant).(shared := x.shared.(grants := r.0))
  }

  lemma ReserveGrantStep(x: Scene, fault: Fault)
    requires x.a.at == ReservingGrant && x.a.job.Commit?
    ensures Step(x, fault) == Broken(x, GrantTaken(x), true, fault)
  {
    ExposedStep(x, fault);
  }

  /** The same for the call itself, given what the grant store answered. */
  lemma ReserveGrantOutcome(x: Scene, fault: Fault, granted: bool)
    requires x.a.at == ReservingGrant && x.a.job.Commit? && !fault.Raises?
    requires granted == GrantStore.Reserve(x.shared.grants, x.a.job.grant.id, x.a.job.grant.maxUses).1
    ensures var y, next := Step(x, fault), if granted then Moving(Enter, Read) else RefusedGrant;
            y.records == x.records && y.a == x.a.(at := if fault.Fine? then next else Thrown(next))
  {
    ReserveGrantStep(x, fault);
  }

  function BudgetGiven(x: Scene): Scene
    requires x.a.charge.Some?
  {
    var r := Budget.Release(x.shared.ledger, x.a.charge.value.0, x.a.charge.value.1);
    if r.Err? then Goes(x, Stuck(x.a.at)) else Goes(x, AfterRelease(x.a.at)).(shared := x.shared.(ledger := r.value))
  }

  lemma ReleasePlan(x: Scene)
    requires Releasing(x.a.at) && x.a.job.Commit? && x.a.charge.Some?
    ensures var m := CommitMove(x, x.a.job.manifest, x.a.job.grant);
            Carry(x, m) == BudgetGiven(x) && (m.op.Skip? ==> m.next.Stuck?) && !m.op.Adopt?
  {
  }

  lemma ReleaseStep(x: Scene, fault: Fault)
    requires Releasing(x.a.at) && x.a.job.Commit?
    ensures Step(x, fault) ==
              if x.a.charge.None? then Goes(x, AfterRelease(x.a.at)) else Broken(x, BudgetGiven(x), true, fault)
  {
    if x.a.charge.None? {
      SilentStep(x, fault);
    } else {
      ReleasePlan(x);
      ExposedStep(x, fault);
    }
  }

  /** The same for the call itself, given what the ledger answered. */
  lemma ReleaseOutcome(x: Scene, fault: Fault, refused: bool)
    requires Releasing(x.a.at) && x.a.job.Commit? && x.a.charge.Some? && !fault.Raises?
    requires refused <==> Budget.Release(x.shared.ledger, x.a.charge.value.0, x.a.charge.value.1).Err?
    ensures var y := Step(x, fault);
            && y.records == x.records
            && y.a == x.a.(at := if refused then Stuck(x.a.at)
                                 else if fault.Fine? then AfterRelease(x.a.at) else Thrown(AfterRelease(x.a.at)))
  {
    ReleaseStep(x, fault);
  }

  function GrantGiven(x: Scene): Scene
    requires x.a.job.Commit? && (x.a.at.UndoingGrant? || x.a.at.FailingGrant?)
  {
    Goes(x, if x.a.at.UndoingGrant? then UndoingBudget else FailingBudget(x.a.at.abandon)).(
      shared := x.shared.(grants := GrantStore.Release(x.shared.grants, x.a.job.grant.id)))
  }

  lemma GiveGrantStep(x: Scene, fault: Fault)
    requires (x.a.at.UndoingGrant? || x.a.at.FailingGrant?) && x.a.job.Commit?
    ensures Step(x, fault) == Broken(x, GrantGiven(x), true, fault)
  {
    ExposedStep(x, fault);
  }

  function Consulted(x: Scene): Scene
    requires x.a.job.Commit?
  {
    var outcomes, key := x.shared.grants.outcomes, x.a.job.manifest.key;
    x.(a := if key in outcomes then x.a.(at := ReplayBudget(outcomes[key]), replayed := true)
            else x.a.(at := Validating))
  }

  /** The same for the call itself. */
  lemma GiveGrantOutcome(x: Scene, fault: Fault)
    requires (x.a.at.UndoingGrant? || x.a.at.FailingGrant?) && x.a.job.Commit? && !fault.Raises?
    ensures var y := Step(x, fault);
            var next := if x.a.at.UndoingGrant? then UndoingBudget else FailingBudget(x.a.at.abandon);
            y.records == x.records && y.a == x.a.(at := if fault.Fine? then next else Thrown(next))
  {
    GiveGrantStep(x, fault);
  }

  lemma ConsultStep(x: Scene, fault: Fault)
    requires x.a.at == Consulting && x.a.job.Commit?
    ensures Step(x, fault) == Broken(x, Consulted(x), false, fault)
  {
    ExposedStep(x, fault);
  }

  function IntentConfirmed(x: Scene, next: Point): Scene
    requires x.a.job.Commit? && x.shared.outbox.Some?
  {
    var r := Outbox.MarkConfirmed(x.shared.outbox.value, x.a.job.manifest.key);
    if r.None? then Goes(x, Stuck(x.a.at)) else Goes(x, next).(shared := x.shared.(outbox := r))
  }

  lemma ConfirmStep(x: Scene, reference: string, next: Point, fault: Fault)
    requires x.a.job.Commit?
    requires (x.a.at == ReplayIntent(reference) && next == ReplayGrant(reference))
             || (x.a.at == ConfirmingIntent(reference) && next == SpendingGrant(reference))
    ensures Step(x, fault) ==
              if x.shared.outbox.None? then Goes(x, next) else Broken(x, IntentConfirmed(x, next), true, fault)
  {
    if x.shared.outbox.None? {
      SilentStep(x, fault);
    } else {
      ExposedStep(x, fault);
    }
  }

  /** The same for the call itself, given what the outbox answered. */
  lemma ConfirmOutcome(x: Scene, reference: string, next: Point, fault: Fault, ok: bool)
    requires x.a.job.Commit? && x.shared.outbox.Some? && !fault.Raises?
    requires (x.a.at == ReplayIntent(reference) && next == ReplayGrant(reference))
             || (x.a.at == ConfirmingIntent(reference) && next == SpendingGrant(reference))
    requires ok <==> Outbox.MarkConfirmed(x.shared.outbox.value, x.a.job.manifest.key).Some?
    ensures var y := Step(x, fault);
            && y.records == x.records
            && y.a == x.a.(at := if !ok then Stuck(x.a.at) else if fault.Fine? then next else Thrown(next))
  {
    ConfirmStep(x, reference, next, fault);
  }

  function UseSpent(x: Scene, reference: string): Scene
    requires x.a.job.Commit?
  {
    var r := GrantStore.Finalize(x.shared.grants, x.a.job.grant.id, x.a.job.manifest.key, reference);
    if r.None? then Goes(x, Stuck(x.a.at)) else Goes(x, Moving(Settle, Read)).(shared := x.shared.(grants := r.value))
  }

  lemma UseStep(x: Scene, reference: string, fault: Fault)
    requires x.a.job.Commit? && (x.a.at == ReplayGrant(reference) || x.a.at == SpendingGrant(reference))
    ensures Step(x, fault) == Broken(x, UseSpent(x, reference), true, fault)
  {
    ExposedStep(x, fault);
  }

  /** The same for the call itself, given what the grant store answered. */
  lemma UseOutcome(x: Scene, reference: string, fault: Fault, ok: bool)
    requires x.a.job.Commit? && (x.a.at == ReplayGrant(reference) || x.a.at == SpendingGrant(reference))
             && !fault.Raises?
    requires ok <==> GrantStore.Finalize(x.shared.grants, x.a.job.grant.id, x.a.job.manifest.key, reference).Some?
    ensures var y := Step(x, fault);
            && y.records == x.records
            && y.a == x.a.(at := if !ok then Stuck(x.a.at)
                                 else if fault.Fine? then Moving(Settle, Read) else Thrown(Moving(Settle, Read)))
  {
    UseStep(x, reference, fault);
  }

  function IntentAbandoned(x: Scene): Scene
    requires x.a.job.Commit? && x.shared.outbox.Some?
  {
    var r := Outbox.MarkAbandoned(x.shared.outbox.value, x.a.job.manifest.key);
    if r.None? then Goes(x, Done) else Goes(x, Moving(Fail, Read)).(shared := x.shared.(outbox := r))
  }

  lemma AbandonStep(x: Scene, fault: Fault)
    requires x.a.at == FailingIntent && x.a.job.Commit?
    ensures Step(x, fault) ==
              if x.shared.outbox.None? then Goes(x, Moving(Fail, Read))
              else Broken(x, IntentAbandoned(x), !IntentAbandoned(x).a.at.Done?, fault)
  {
    if x.shared.outbox.None? {
      SilentStep(x, fault);
    } else {
      ExposedStep(x, fault);
    }
  }

  /** The same for the call itself, given what the outbox answered. */
  lemma AbandonOutcome(x: Scene, fault: Fault, ok: bool)
    requires x.a.at == FailingIntent && x.a.job.Commit? && x.shared.outbox.Some? && !fault.Raises?
    requires ok <==> Outbox.MarkAbandoned(x.shared.outbox.value, x.a.job.manifest.key).Some?
    ensures var y := Step(x, fault);
            && y.records == x.records
            && y.a == x.a.(at := if !ok then (if fault.Fine? then Done else Thrown(FailingIntent))
                                 else if fault.Fine? then Moving(Fail, Read) else Thrown(Moving(Fail, Read)))
  {
    AbandonStep(x, fault);
  }

  function BudgetConsumed(x: Scene, reference: string): Scene
    requires x.a.charge.Some?
  {
    var r := Budget.Commit(x.shared.ledger, x.a.charge.value.0, x.a.charge.value.1);
    if r.Err? then Goes(x, Stuck(x.a.at))
    else Goes(x, ConfirmingIntent(reference)).(shared := x.shared.(ledger := r.value))
  }

  lemma SpendStep(x: Scene, reference: string, fault: Fault)
    requires x.a.at == SpendingBudget(reference) && x.a.job.Commit?
    ensures Step(x, fault) ==
              if x.a.charge.None? then Goes(x, ConfirmingIntent(reference))
              else Broken(x, BudgetConsumed(x, reference), true, fault)
  {
    if x.a.charge.None? {
      SilentStep(x, fault);
    } else {
      ExposedStep(x, fault);
    }
  }

  /** The same for the call itself, given what the ledger answered. */
  lemma SpendOutcome(x: Scene, reference: string, fault: Fault, refused: bool)
    requires x.a.at == SpendingBudget(reference) && x.a.job.Commit? && x.a.charge.Some? && !fault.Raises?
    requires refused <==> Budget.Commit(x.shared.ledger, x.a.charge.value.0, x.a.charge.value.1).Err?
    ensures var y := Step(x, fault);
            && y.records == x.records
            && y.a == x.a.(at := if refused then Stuck(x.a.at)
                                 else if fault.Fine? then ConfirmingIntent(reference)
                                 else Thrown(ConfirmingIntent(reference)))
  {
    SpendStep(x, reference, fault);
  }

  // ---------- recovery ----------

  lemma ProbeStep(x: Scene, fault: Fault)
    requires x.a.at == Probing && x.a.job.Recover?
    ensures var m := x.a.job.manifest;
            var found := fault.Fine? && Pay.Evidence(x.shared.provider, m.key, m.payment);
            Step(x, fault) == Goes(x, if found then Backfilling else Done)
  {
  }

  lemma BackfillStep(x: Scene, fault: Fault)
    requires x.a.at == Backfilling && x.a.job.Recover?
    ensures var key := x.a.job.manifest.key;
            Step(x, fault) ==
              if fault.Raises? then Goes(x, Done)
              else Goes(x, if fault.Fine? then Peeking else Done).(
                shared := x.shared.(grants := GrantStore.RecordOutcome(x.shared.grants, key, "settled:" + key)))
  {
  }

  lemma PeekStep(x: Scene, fault: Fault)
    requires x.a.at == Peeking && x.a.job.Recover?
    ensures var key := x.a.job.manifest.key;
            Step(x, fault) ==
              Goes(x, if !fault.Fine? then Done
                      else if x.shared.outbox.Some? && key in x.shared.outbox.value
                              && x.shared.outbox.value[key].status == Outbox.Pending
                      then Confirming else Deciding)
  {
  }

  lemma ReconfirmStep(x: Scene, fault: Fault)
    requires x.a.at == Confirming && x.a.job.Recover? && x.shared.outbox.Some?
    ensures var r := Outbox.MarkConfirmed(x.shared.outbox.value, x.a.job.manifest.key);
            Step(x, fault) ==
              if fault.Raises? || r.None? then Goes(x, Done)
              else Goes(x, if fault.Fine? then Deciding else Done).(shared := x.shared.(outbox := r))
  {
  }

  lemma DecideStep(x: Scene, fault: Fault)
    requires x.a.at == Deciding && x.a.job.Recover?
    ensures var id := x.a.job.manifest.id;
            var state := Known(x, id);
            Step(x, fault) ==
              if fault.Raises? then Goes(x, Done)
              else Goes(x, if fault.Fine? && Legal(state, RecoveredCommitted) then Moving(Reconcile, Read) else Done).(
                records := x.records[id := state])
  {
  }
}
