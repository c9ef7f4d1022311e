/** The commit protocol as small steps.

    Any number of engines run attempts over shared stores. One step of an attempt is one call
    to a store, to the audit journal or to the adapter, so that every interleaving of such
    calls is a run of this machine. Every call may raise by itself, with or without having taken
    effect; before any reservation such a fault also stands for a failed signature, window,
    policy, envelope or adapter check. */
module CommitProtocol {
  import opened Wrappers
  import opened Faults
  import opened Amounts
  import opened Lifecycle
  import Budget
  import GrantStore
  import Outbox
  import Pay = PaymentSimulator
  import Revocation

  /** A sealed manifest; two manifests with the same hash are the same value. */
  datatype Manifest = Manifest(
    id: string, key: string, payment: Pay.Payment, expectedBalance: int, cost: Option<Money>)

  /** The parts of a grant that commit reads. `boundTo` is the manifest hash binding. */
  datatype Grant = Grant(
    id: string, boundTo: Option<Manifest>, maxUses: nat, budgetId: Option<string>, parent: Option<string>)

  datatype Shared = Shared(
    lifecycle: Lifecycle.Table,
    grants: GrantStore.Grants,
    outbox: Option<Outbox.Table<Manifest>>,
    ledger: Budget.Ledger,
    provider: Pay.Provider)

  /** What a call of the engine is doing. Transit stands for every other engine operation that
      moves a lifecycle: prepare, seal, authorize, verify, revoke, expire, compensate. */
  datatype Job =
    | Commit(manifest: Manifest, grant: Grant)
    | Recover(manifest: Manifest)
    | Transit(id: string, target: State)

  /** Why a lifecycle is being moved; it decides the target and where the call goes next. */
  datatype Goal = Enter | Settle | Fail | Reconcile | Plain

  /** The calls inside one lifecycle transition. */
  datatype Phase = Read | Look(from: State) | CasAbsent(from: State) | CasFrom(from: State) | Audit

  /** The next call of an attempt, or how it left the engine: Done returned or raised in order;
      Thrown is an exit by an exception that no handler of the engine catches, holding what a
      call at that point holds; Stuck is an exit by a store's own error branch. */
  datatype Point =
    | Checking
    | ReservingBudget
    | ReservingGrant
    | RefusedGrant
    | Moving(goal: Goal, phase: Phase)
    | UndoingGrant
    | UndoingBudget
    | RecordingIntent
    | Consulting
    | ReplayBudget(outcome: string)
    | ReplayIntent(outcome: string)
    | ReplayGrant(outcome: string)
    | Validating
    | Calling
    | FailingGrant(abandon: bool)
    | FailingBudget(abandon: bool)
    | FailingIntent
    | SpendingBudget(reference: string)
    | ConfirmingIntent(reference: string)
    | SpendingGrant(reference: string)
    | Probing
    | Backfilling
    | Peeking
    | Confirming
    | Deciding
    | Done
    | Thrown(holding: Point)
    | Stuck(origin: Point)

  /** One call of the engine. The last four fields are a history of the call: the reservation
      it took from a budget, whether its compare-and-set to COMMITTING went through, whether
      the adapter reported success to it, and whether it was answered from the idempotency
      ledger. */
  datatype Attempt = Attempt(
    engine: nat, job: Job, at: Point,
    charge: Option<(string, int)>, entered: bool, succeeded: bool, replayed: bool)

  function Launch(engine: nat, job: Job): Attempt {
    var at := match job
      case Commit(_, _) => Checking
      case Recover(_) => Probing
      case Transit(_, _) => Moving(Plain, Read);
    Attempt(engine, job, at, None, false, false, false)
  }

  /** One engine at work: the shared stores, its own lifecycle records, and its call. */
  datatype Scene = Scene(shared: Shared, records: map<string, State>, a: Attempt)

  /** The effect of one call on a store, on the provider or on the engine's own records. */
  datatype Op =
    | Skip
    | TakeBudget(id: string, amount: int)
    | GiveBudget(id: string, amount: int)
    | SpendBudget(id: string, amount: int)
    | AskGrant(id: string, maxUses: nat, granted: bool)
    | GiveGrant(id: string)
    | UseGrant(id: string, key: string, outcome: string)
    | Intend(key: string, id: string, manifest: Manifest)
    | Confirm(key: string)
    | Abandon(key: string)
    | Adopt
    | Pass(key: string, payment: Pay.Payment, success: bool)
    | Backfill(key: string, outcome: string)
    | Remember(id: string, state: State)
    | Store(id: string, target: State, back: Option<State>)

  /** What an attempt does next, and where it continues. */
  datatype Move = Do(op: Op, next: Point)

  function ManifestId(job: Job): string {
    if job.Transit? then job.id else job.manifest.id
  }

  function Target(job: Job, goal: Goal): State {
    match goal
    case Enter => Committing
    case Settle => Committed
    case Fail => Failed
    case Reconcile => RecoveredCommitted
    case Plain => if job.Transit? then job.target else Failed
  }

  // ---------- the lifecycle transition ----------

  /** The engine's cached record, or the stored one, or a fresh PROPOSED record. */
  function Known(x: Scene, id: string): State {
    if id in x.records then x.records[id] else Stored(x.shared.lifecycle, id)
  }

  /** Where a transition that raises, or one that returns, continues. */
  function Raised(goal: Goal): Point {
    if goal == Enter then UndoingGrant else Done
  }

  function Returned(goal: Goal): Point {
    if goal == Enter then RecordingIntent else Done
  }

  /** The in-memory record advances before the durable write, and is put back to the state it
      came from when that write does not happen or its reply is lost. */
  function TransitionMove(x: Scene, goal: Goal, phase: Phase, fault: Fault): Move {
    var id, target, table := ManifestId(x.a.job), Target(x.a.job, goal), x.shared.lifecycle;
    match phase
    case Read =>
      var from := Known(x, id);
      if !fault.Fine? then Do(Skip, Raised(goal))
      else if !Legal(from, target) then Do(Remember(id, from), Raised(goal))
      else Do(Remember(id, target), Moving(goal, Look(from)))
    case Look(from) =>
      if !fault.Fine? then Do(Remember(id, from), Raised(goal))
      else if id !in table && from == Proposed then Do(Skip, Moving(goal, CasAbsent(from)))
      else Do(Skip, Moving(goal, CasFrom(from)))
    case CasAbsent(from) =>
      if id !in table then WriteMove(goal, id, from, target, fault)
      else if fault.Fine? then Do(Skip, Moving(goal, CasFrom(from)))
      else Do(Remember(id, from), Raised(goal))
    case CasFrom(from) =>
      if id in table && table[id] == from then WriteMove(goal, id, from, target, fault)
      else Do(Remember(id, from), Raised(goal))
    case Audit => Do(Skip, if fault.Fine? then Returned(goal) else Raised(goal))
  }

  /** A compare-and-set that finds what it expects. */
  function WriteMove(goal: Goal, id: string, from: State, target: State, fault: Fault): Move {
    match fault
    case Fine => Do(Store(id, target, None), Moving(goal, Audit))
    case Raises => Do(Remember(id, from), Raised(goal))
    case Late => Do(Store(id, target, Some(from)), Raised(goal))
  }

  // ---------- commit ----------

  /** The checks before any reservation that read the stores: the grant is bound to this
      manifest, it is not revoked, and its ancestor walk comes back clean. */
  predicate Admitted(s: Shared, manifest: Manifest, grant: Grant) {
    && grant.boundTo == Some(manifest)
    && !GrantStore.IsRevoked(s.grants, grant.id)
    && Revocation.Walk(s.grants, grant.id, grant.parent, Revocation.MAX_DELEGATION_DEPTH).Ok?
  }

  /** The amount that reserving the budget of a grant would take; Err is a denial. */
  function BudgetDemand(ledger: Budget.Ledger, id: string, manifest: Manifest): Result<int, Budget.Error> {
    if id !in ledger.budgets then Err(Budget.UnknownBudget)
    else
      var amount := Budget.ConsumeAmount(ledger.budgets[id], manifest.cost);
      if amount.Err? then amount
      else
        var r := Budget.Reserve(ledger, id, amount.value);
        if r.Err? then Err(r.error) else if !r.value.1 then Err(Budget.Exhausted) else amount
  }

  /** The points at which the budget reservation is given back, and where the call goes on. */
  predicate Releasing(at: Point) {
    at.RefusedGrant? || at.UndoingBudget? || at.ReplayBudget? || at.FailingBudget?
  }

  function AfterRelease(at: Point): Point {
    match at
    case ReplayBudget(outcome) => ReplayIntent(outcome)
    case FailingBudget(abandon) => if abandon then FailingIntent else Moving(Fail, Read)
    case _ => Done
  }

  /** Releases the budget reservation, if there is one. */
  function ReleaseMove(x: Scene, next: Point): Move {
    if x.a.charge.None? then Do(Skip, next)
    else
      var (id, amount) := x.a.charge.value;
      if Budget.Release(x.shared.ledger, id, amount).Err? then Do(Skip, Stuck(x.a.at))
      else Do(GiveBudget(id, amount), next)
  }

  function ConfirmMove(x: Scene, key: string, next: Point): Move {
    if x.shared.outbox.None? then Do(Skip, next)
    else if Outbox.MarkConfirmed(x.shared.outbox.value, key).None? then Do(Skip, Stuck(x.a.at))
    else Do(Confirm(key), next)
  }

  function UseMove(x: Scene, grant: Grant, key: string, outcome: string): Move {
    if GrantStore.Finalize(x.shared.grants, grant.id, key, outcome).None? then Do(Skip, Stuck(x.a.at))
    else Do(UseGrant(grant.id, key, outcome), Moving(Settle, Read))
  }

  /** The outcome recorded for a success: the provider's reference, unless it is empty. */
  function OutcomeRef(reference: string): string {
    if reference == "" then "committed" else reference
  }

  /** A raise of the adapter leaves the outcome unknown. */
  function SubmissionMove(x: Scene, manifest: Manifest, fault: Fault): Move {
    if fault.Raises? then Do(Skip, FailingGrant(false))
    else if fault.Late? then Do(Pass(manifest.key, manifest.payment, false), FailingGrant(false))
    else match Pay.CommitReplyOf(Pay.Submit(x.shared.provider, manifest.key, manifest.payment).1)
    case Success(reference) => Do(Pass(manifest.key, manifest.payment, true), SpendingBudget(OutcomeRef(reference)))
    case Failure => Do(Pass(manifest.key, manifest.payment, false), FailingGrant(true))
    case Exception => Do(Pass(manifest.key, manifest.payment, false), FailingGrant(false))
  }

  /** The points of commit where an exception is handled. */
  predicate Handled(at: Point) {
    at.Checking? || at.RecordingIntent? || at.Validating? || at.Calling?
  }

  function HandledMove(x: Scene, manifest: Manifest, grant: Grant, fault: Fault): Move {
    match x.a.at
    case Checking => Do(Skip, if fault.Fine? && Admitted(x.shared, manifest, grant) then ReservingBudget else Done)
    case RecordingIntent =>
      if x.shared.outbox.None? then Do(Skip, Consulting)
      else if fault.Raises? || Outbox.RecordPending(x.shared.outbox.value, manifest.key, grant.id, manifest).None?
      then Do(Skip, UndoingGrant)
      else Do(Intend(manifest.key, grant.id, manifest), if fault.Fine? then Consulting else UndoingGrant)
    case Validating =>
      if fault.Fine? && Pay.PreconditionsHold(x.shared.provider, manifest.payment, manifest.expectedBalance)
      then Do(Skip, Calling)
      else Do(Skip, FailingGrant(true))
    case _ => SubmissionMove(x, manifest, fault)
  }

  /** The points that make no call because there is no budget or no outbox to call. */
  predicate Silent(x: Scene, grant: Grant) {
    if Releasing(x.a.at) then x.a.charge.None?
    else match x.a.at
    case ReservingBudget => grant.budgetId.None?
    case SpendingBudget(_) => x.a.charge.None?
    case ReplayIntent(_) => x.shared.outbox.None?
    case ConfirmingIntent(_) => x.shared.outbox.None?
    case FailingIntent => x.shared.outbox.None?
    case _ => x.a.at.Done? || x.a.at.Thrown? || x.a.at.Stuck?
  }

  /** A raise at a point of commit where nothing catches it. Only a call that writes can take effect
      and raise all the same. */
  function Interrupted(at: Point, m: Move, fault: Fault): Move {
    if fault.Fine? || (fault.Late? && m.next.Stuck?) then m
    else if fault.Raises? || m.op.Skip? || m.op.Adopt? then Do(Skip, Thrown(at))
    else Do(m.op, Thrown(m.next))
  }

  /** The other points of commit, when the call does not raise. */
  function CommitMove(x: Scene, manifest: Manifest, grant: Grant): Move {
    if Releasing(x.a.at) then ReleaseMove(x, AfterRelease(x.a.at))
    else match x.a.at
    case ReservingBudget =>
      if grant.budgetId.None? then Do(Skip, ReservingGrant)
      else
        var demand := BudgetDemand(x.shared.ledger, grant.budgetId.value, manifest);
        if demand.Err? then Do(Skip, Done)
        else Do(TakeBudget(grant.budgetId.value, demand.value), ReservingGrant)
    case ReservingGrant =>
      var granted := GrantStore.Reserve(x.shared.grants, grant.id, grant.maxUses).1;
      Do(AskGrant(grant.id, grant.maxUses, granted), if granted then Moving(Enter, Read) else RefusedGrant)
    case UndoingGrant => Do(GiveGrant(grant.id), UndoingBudget)
    case Consulting =>
      if manifest.key in x.shared.grants.outcomes
      then Do(Adopt, ReplayBudget(x.shared.grants.outcomes[manifest.key]))
      else Do(Skip, Validating)
    case ReplayIntent(outcome) => ConfirmMove(x, manifest.key, ReplayGrant(outcome))
    case ReplayGrant(outcome) => UseMove(x, grant, manifest.key, outcome)
    case FailingGrant(abandon) => Do(GiveGrant(grant.id), FailingBudget(abandon))
    case FailingIntent =>
      // An abandonment that is refused raises before the lifecycle is moved.
      if x.shared.outbox.None? then Do(Skip, Moving(Fail, Read))
      else if Outbox.MarkAbandoned(x.shared.outbox.value, manifest.key).None? then Do(Skip, Done)
      else Do(Abandon(manifest.key), Moving(Fail, Read))
    case SpendingBudget(reference) =>
      if x.a.charge.None? then Do(Skip, ConfirmingIntent(reference))
      else
        var (id, amount) := x.a.charge.value;
        if Budget.Commit(x.shared.ledger, id, amount).Err? then Do(Skip, Stuck(x.a.at))
        else Do(SpendBudget(id, amount), ConfirmingIntent(reference))
    case ConfirmingIntent(reference) => ConfirmMove(x, manifest.key, SpendingGrant(reference))
    case SpendingGrant(reference) => UseMove(x, grant, manifest.key, reference)
    case _ => Do(Skip, x.a.at)
  }

  // ---------- recovery of an ambiguous outcome ----------

  /** Recovery holds nothing, so a raise just ends it. */
  function Ended(m: Move, fault: Fault): Move {
    match fault
    case Fine => m
    case Raises => Do(Skip, Done)
    case Late => Do(m.op, Done)
  }

  function RecoverMove(x: Scene, manifest: Manifest): Move {
    match x.a.at
    case Probing =>
      if Pay.Evidence(x.shared.provider, manifest.key, manifest.payment) then Do(Skip, Backfilling)
      else Do(Skip, Done)
    case Backfilling => Do(Backfill(manifest.key, "settled:" + manifest.key), Peeking)
    case Peeking =>
      if && x.shared.outbox.Some? && manifest.key in x.shared.outbox.value
         && x.shared.outbox.value[manifest.key].status == Outbox.Pending
      then Do(Skip, Confirming)
      else Do(Skip, Deciding)
    case Confirming =>
      if x.shared.outbox.None? then Do(Skip, Deciding)
      else if Outbox.MarkConfirmed(x.shared.outbox.value, manifest.key).None? then Do(Skip, Done)
      else Do(Confirm(manifest.key), Deciding)
    case Deciding =>
      var state := Known(x, manifest.id);
      Do(Remember(manifest.id, state), if Legal(state, RecoveredCommitted) then Moving(Reconcile, Read) else Done)
    case _ => Do(Skip, x.a.at)
  }

  /** An attempt that has left the engine stays where it is. */
  function NextMove(x: Scene, fault: Fault): Move {
    if x.a.at.Moving? then TransitionMove(x, x.a.at.goal, x.a.at.phase, fault)
    else match x.a.job
      case Commit(manifest, grant) =>
        if Handled(x.a.at) then HandledMove(x, manifest, grant, fault)
        else if Silent(x, grant) then CommitMove(x, manifest, grant)
        else Interrupted(x.a.at, CommitMove(x, manifest, grant), fault)
      case Recover(manifest) => Ended(RecoverMove(x, manifest), fault)
      case Transit(_, _) => Do(Skip, x.a.at)
  }

  // ---------- carrying out a move ----------

  function LedgerAfter(l: Budget.Ledger, op: Op): Budget.Ledger {
    match op
    case TakeBudget(id, amount) => var r := Budget.Reserve(l, id, amount); if r.Err? then l else r.value.0
    case GiveBudget(id, amount) => var r := Budget.Release(l, id, amount); if r.Err? then l else r.value
    case SpendBudget(id, amount) => var r := Budget.Commit(l, id, amount); if r.Err? then l else r.value
    case _ => l
  }

  function GrantsAfter(g: GrantStore.Grants, op: Op): GrantStore.Grants {
    match op
    case AskGrant(id, maxUses, _) => GrantStore.Reserve(g, id, maxUses).0
    case GiveGrant(id) => GrantStore.Release(g, id)
    case UseGrant(id, key, outcome) =>
      var r := GrantStore.Finalize(g, id, key, outcome); if r.None? then g else r.value
    case Backfill(key, outcome) => GrantStore.RecordOutcome(g, key, outcome)
    case _ => g
  }

  function OutboxAfter(t: Outbox.Table<Manifest>, op: Op): Outbox.Table<Manifest> {
    var r := match op
      case Intend(key, id, manifest) => Outbox.RecordPending(t, key, id, manifest)
      case Confirm(key) => Outbox.MarkConfirmed(t, key)
      case Abandon(key) => Outbox.MarkAbandoned(t, key)
      case _ => None;
    if r.None? then t else r.value
  }

  function SharedAfter(s: Shared, op: Op): Shared {
    Shared(
      if op.Store? then s.lifecycle[op.id := op.target] else s.lifecycle,
      GrantsAfter(s.grants, op),
      if s.outbox.None? then None else Some(OutboxAfter(s.outbox.value, op)),
      LedgerAfter(s.ledger, op),
      if op.Pass? then Pay.Submit(s.provider, op.key, op.payment).0 else s.provider)
  }

  function AttemptAfter(a: Attempt, m: Move): Attempt {
    a.(at := m.next,
       charge := if m.op.TakeBudget? then Some((m.op.id, m.op.amount)) else a.charge,
       entered := a.entered || (m.op.Store? && a.at.Moving? && a.at.goal == Enter),
       succeeded := a.succeeded || (m.op.Pass? && m.op.success),
       replayed := a.replayed || m.op.Adopt?)
  }

  function RecordsAfter(records: map<string, State>, op: Op): map<string, State> {
    match op
    case Remember(id, state) => records[id := state]
    case Store(id, _, back) => if back.Some? then records[id := back.value] else records
    case _ => records
  }

  function Carry(x: Scene, m: Move): Scene {
    Scene(SharedAfter(x.shared, m.op),
          RecordsAfter(x.records, m.op),
          AttemptAfter(x.a, m))
  }

  /** One call of an attempt. */
  function Step(x: Scene, fault: Fault): Scene {
    Carry(x, NextMove(x, fault))
  }

  // ---------- whole runs ----------

  datatype World = World(shared: Shared, memories: map<nat, map<string, State>>, attempts: seq<Attempt>)

  /** An engine takes a step, or someone outside changes a store or the provider. */
  datatype Action =
    | Start(engine: nat, job: Job)
    | Advance(i: nat, fault: Fault)
    | Revoke(grantId: string)
    | Lineage(grantId: string, parent: Option<string>)
    | Register(budget: Budget.AuthorityBudget)
    | Fund(account: string, units: int)
    | InjectFailure
    | InjectTimeout
    | Submit(key: string, payment: Pay.Payment)

  function Memory(w: World, engine: nat): map<string, State> {
    if engine in w.memories then w.memories[engine] else map[]
  }

  function SceneOf(w: World, i: nat): Scene
    requires i < |w.attempts|
  {
    Scene(w.shared, Memory(w, w.attempts[i].engine), w.attempts[i])
  }

  function Outside(s: Shared, act: Action): Shared {
    match act
    case Revoke(id) => s.(grants := GrantStore.Revoke(s.grants, id))
    case Lineage(id, parent) => s.(grants := GrantStore.RecordLineage(s.grants, id, parent))
    case Register(budget) =>
      var r := Budget.Register(s.ledger, budget);
      if budget.Limit() < 1 || r.Err? then s else s.(ledger := r.value)
    case Fund(account, units) => s.(provider := Pay.Fund(s.provider, account, units))
    case InjectFailure => s.(provider := s.provider.(failNext := true))
    case InjectTimeout => s.(provider := s.provider.(timeoutNext := true))
    case Submit(key, payment) => s.(provider := Pay.Submit(s.provider, key, payment).0)
    case _ => s
  }

  function Perform(w: World, act: Action): World {
    match act
    case Start(engine, job) => w.(attempts := w.attempts + [Launch(engine, job)])
    case Advance(i, fault) =>
      if i >= |w.attempts| then w
      else
        var y := Step(SceneOf(w, i), fault);
        World(y.shared, w.memories[w.attempts[i].engine := y.records], w.attempts[i := y.a])
    case _ => w.(shared := Outside(w.shared, act))
  }

  /** Empty stores, with or without an outbox. */
  function Initial(withOutbox: bool): World {
    World(
      Shared(map[], GrantStore.Grants(map[], map[], map[]),
             if withOutbox then Some(map[]) else None, Budget.EmptyLedger, Pay.NewProvider),
      map[], [])
  }

  /** The world after some actions. */
  function RunFrom(w: World, acts: seq<Action>): World {
    if acts == [] then w else Perform(RunFrom(w, acts[..|acts| - 1]), acts[|acts| - 1])
  }

  /** The world after a whole run. */
  function Run(withOutbox: bool, acts: seq<Action>): World {
    RunFrom(Initial(withOutbox), acts)
  }
}
