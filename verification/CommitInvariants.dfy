/** What every step of the commit protocol keeps. */
module CommitInvariants {
  import opened Wrappers
  import opened Faults
  import opened Lifecycle
  import opened CommitProtocol
  import Budget
  import GrantStore
  import Outbox
  import Pay = PaymentSimulator

  // ---------- what an attempt holds and has spent ----------

  /** What a call knows of its own outcome at a point. */
  datatype Verdict = Undecided | Won | Replaying | Decided | Over

  /** What every attempt at a point has in common: the operations that can be there, whether
      it holds the budget reservation, whether it holds the grant reservation, whether its
      COMMITTING write has gone through, whether its intent is open, and its verdict. */
  datatype Profile = Profile(
    commit: bool, budget: bool, grant: bool, entered: bool, open: bool, verdict: Verdict)

  /** A call that was thrown out keeps what it held, and its intent is no longer its own concern. */
  function ProfileOf(at: Point): Profile {
    if at.Thrown? then ProfileAt(at.holding).(open := false) else ProfileAt(at)
  }

  function ProfileAt(at: Point): Profile {
    match at
    case Checking => Profile(true, false, false, false, false, Undecided)
    case ReservingBudget => Profile(true, false, false, false, false, Undecided)
    case ReservingGrant => Profile(true, true, false, false, false, Undecided)
    case RefusedGrant => Profile(true, true, false, false, false, Undecided)
    case Moving(Enter, phase) => Profile(true, true, true, phase == Audit, false, Undecided)
    case Moving(Settle, _) => Profile(true, false, false, true, false, Decided)
    case Moving(Fail, _) => Profile(true, false, false, true, false, Undecided)
    case Moving(_, _) => Profile(false, false, false, false, false, Undecided)
    case UndoingGrant => Profile(true, true, true, false, false, Undecided)
    case UndoingBudget => Profile(true, true, false, false, false, Undecided)
    case RecordingIntent => Profile(true, true, true, true, false, Undecided)
    case Consulting => Profile(true, true, true, true, true, Undecided)
    case ReplayBudget(_) => Profile(true, true, true, true, true, Replaying)
    case ReplayIntent(_) => Profile(true, false, true, true, true, Replaying)
    case ReplayGrant(_) => Profile(true, false, true, true, false, Replaying)
    case Validating => Profile(true, true, true, true, true, Undecided)
    case Calling => Profile(true, true, true, true, true, Undecided)
    case FailingGrant(_) => Profile(true, true, true, true, true, Undecided)
    case FailingBudget(_) => Profile(true, true, false, true, true, Undecided)
    case FailingIntent => Profile(true, false, false, true, true, Undecided)
    case SpendingBudget(_) => Profile(true, true, true, true, true, Won)
    case ConfirmingIntent(_) => Profile(true, false, true, true, true, Won)
    case SpendingGrant(_) => Profile(true, false, true, true, false, Won)
    case Done => Profile(true, false, false, false, false, Over)
    case Stuck(_) => Profile(true, true, true, false, false, Over)
    case _ => Profile(false, false, false, false, false, Undecided)
  }

  /** The quantities that the stores keep and that the attempts account for. */
  datatype Meter = BudgetHeld(id: string) | BudgetSpent(id: string) | GrantHeld(id: string) | GrantUsed(id: string)

  /** The account of one attempt: what it holds and what it has spent. A finished attempt holds
      nothing; it has spent its charge exactly when the adapter reported success to it, and one
      use exactly when it succeeded or was answered from the idempotency ledger. */
  datatype Account = Account(
    heldCharge: Option<(string, int)>, spentCharge: Option<(string, int)>,
    heldGrant: Option<string>, usedGrant: Option<string>)

  function AccountOf(a: Attempt): Account {
    var p := ProfileOf(a.at);
    Account(
      if p.budget then a.charge else None,
      if a.succeeded && !p.budget then a.charge else None,
      if a.job.Commit? && p.grant then Some(a.job.grant.id) else None,
      if a.job.Commit? && (a.succeeded || a.replayed) && !p.grant then Some(a.job.grant.id) else None)
  }

  function Amount(charge: Option<(string, int)>, id: string): int {
    if charge.Some? && charge.value.0 == id then charge.value.1 else 0
  }

  /** The share of one attempt in a meter. */
  function Share(a: Attempt, m: Meter): int {
    var account := AccountOf(a);
    match m
    case BudgetHeld(id) => Amount(account.heldCharge, id)
    case BudgetSpent(id) => Amount(account.spentCharge, id)
    case GrantHeld(id) => if account.heldGrant == Some(id) then 1 else 0
    case GrantUsed(id) => if account.usedGrant == Some(id) then 1 else 0
  }

  function Total(attempts: seq<Attempt>, m: Meter): int {
    if attempts == [] then 0 else Total(attempts[..|attempts| - 1], m) + Share(attempts[|attempts| - 1], m)
  }

  function Reading(s: Shared, m: Meter): int {
    match m
    case BudgetHeld(id) => Budget.Held(s.ledger, id)
    case BudgetSpent(id) => Budget.Spent(s.ledger, id)
    case GrantHeld(id) => if GrantStore.Reserved(s.grants, id) then 1 else 0
    case GrantUsed(id) => GrantStore.Uses(s.grants, id)
  }

  // ---------- what holds of one attempt ----------

  predicate VerdictFits(a: Attempt, v: Verdict) {
    match v
    case Undecided => !a.succeeded && !a.replayed
    case Won => a.succeeded && !a.replayed
    case Replaying => !a.succeeded && a.replayed
    case Decided => a.succeeded != a.replayed
    case Over => !(a.succeeded && a.replayed)
  }

  predicate JobFits(job: Job, at: Point) {
    match job
    case Commit(_, _) => ProfileOf(at).commit && !at.Stuck?
        && (at.Thrown? ==> !at.holding.Stuck? && !at.holding.Thrown?)
    case Recover(_) => at.Done? || (!ProfileOf(at).commit && !at.Thrown? && (at.Moving? ==> at.goal == Reconcile))
    case Transit(_, _) => at.Done? || (at.Moving? && at.goal == Plain)
  }

  /** A transition carries a legal edge from the state it read. */
  predicate PhaseFits(a: Attempt) {
    a.at.Moving? ==>
      match a.at.phase
      case Read => true
      case Audit => true
      case Look(from) => Legal(from, Target(a.job, a.at.goal))
      case CasAbsent(from) => from == Proposed && Legal(from, Target(a.job, a.at.goal))
      case CasFrom(from) => Legal(from, Target(a.job, a.at.goal))
  }

  predicate ShapeFits(a: Attempt) {
    && JobFits(a.job, a.at)
    && PhaseFits(a)
    && VerdictFits(a, ProfileOf(a.at).verdict)
    && (ProfileOf(a.at).entered || a.succeeded || a.replayed ==> a.entered)
    && (a.at.Checking? || a.at.ReservingBudget? ==> a.charge.None?)
    && (a.charge.Some? ==> a.charge.value.1 >= 1)
    && (a.job.Commit? && (ProfileOf(a.at).budget || a.entered) ==> a.charge.Some? == a.job.grant.budgetId.Some?)
    && (a.job.Commit? || (!a.entered && !a.succeeded && !a.replayed && a.charge.None?))
  }

  predicate SettledKey(s: Shared, key: string) {
    key in s.provider.payments && s.provider.payments[key].settled
  }

  /** The provider holds a settled record of the key, for this very amount and beneficiary. */
  predicate Observed(s: Shared, m: Manifest) {
    && SettledKey(s, m.key)
    && s.provider.payments[m.key].amount == m.payment.amount
    && s.provider.payments[m.key].beneficiary == m.payment.beneficiary
  }

  /** An attempt with an open intent finds its own entry in the outbox, not abandoned. */
  predicate IntentStands(s: Shared, a: Attempt) {
    a.job.Commit? && ProfileOf(a.at).open && s.outbox.Some? ==>
      && a.job.manifest.key in s.outbox.value
      && s.outbox.value[a.job.manifest.key].manifest == a.job.manifest
      && s.outbox.value[a.job.manifest.key].status != Outbox.Abandoned
  }

  /** A charge is the amount resolved for this manifest on the budget that the grant binds. */
  predicate ChargeFits(s: Shared, a: Attempt) {
    a.charge.Some? && a.job.Commit? ==>
      && a.job.grant.budgetId == Some(a.charge.value.0)
      && a.charge.value.0 in s.ledger.budgets
      && Budget.ConsumeAmount(s.ledger.budgets[a.charge.value.0], a.job.manifest.cost) == Ok(a.charge.value.1)
  }

  predicate StoresFit(s: Shared, a: Attempt) {
    && ChargeFits(s, a)
    && (a.entered ==> Height(Stored(s.lifecycle, ManifestId(a.job))) >= Height(Committing))
    && IntentStands(s, a)
    && (a.job.Commit? && (a.succeeded || a.replayed) ==> SettledKey(s, a.job.manifest.key))
    && (a.job.Recover? && a.at.Backfilling? ==> Observed(s, a.job.manifest))
  }

  predicate AttemptFits(s: Shared, a: Attempt) {
    ShapeFits(a) && StoresFit(s, a)
  }

  // ---------- what holds of the stores ----------

  ghost predicate GrantsSound(g: GrantStore.Grants) {
    forall id :: id in g.slots ==>
      && 0 <= g.slots[id].uses <= g.slots[id].maxUses
      && (g.slots[id].reserved ==> g.slots[id].uses < g.slots[id].maxUses)
  }

  ghost predicate StoresSound(s: Shared) {
    && Budget.Sound(s.ledger)
    && GrantsSound(s.grants)
    && Pay.Conserving(s.provider)
    && (forall key :: key in s.grants.outcomes ==> SettledKey(s, key))
  }

  /** No two attempts have moved the same manifest to COMMITTING. */
  ghost predicate EntriesDistinct(attempts: seq<Attempt>) {
    forall i, j :: 0 <= i < j < |attempts| && attempts[i].entered && attempts[j].entered ==>
      ManifestId(attempts[i].job) != ManifestId(attempts[j].job)
  }

  ghost predicate Inv(w: World) {
    && StoresSound(w.shared)
    && (forall i :: 0 <= i < |w.attempts| ==> AttemptFits(w.shared, w.attempts[i]))
    && EntriesDistinct(w.attempts)
    && forall m :: Total(w.attempts, m) == Reading(w.shared, m)
  }

  // ---------- sums ----------

  lemma {:induction false} TotalUpdate(attempts: seq<Attempt>, i: nat, b: Attempt, m: Meter)
    requires i < |attempts|
    ensures Total(attempts[i := b], m) == Total(attempts, m) - Share(attempts[i], m) + Share(b, m)
    decreases |attempts|
  {
    var n := |attempts| - 1;
    if i == n {
      assert attempts[i := b][..n] == attempts[..n];
    } else {
      TotalUpdate(attempts[..n], i, b, m);
      assert attempts[i := b][..n] == attempts[..n][i := b];
    }
  }

  lemma ShareIsNotNegative(s: Shared, a: Attempt, m: Meter)
    requires AttemptFits(s, a)
    ensures Share(a, m) >= 0
  {
  }

  lemma {:induction false} SharesAddUp(attempts: seq<Attempt>, i: nat, m: Meter)
    requires i < |attempts| && forall k :: 0 <= k < |attempts| ==> Share(attempts[k], m) >= 0
    ensures Share(attempts[i], m) <= Total(attempts, m)
    decreases |attempts|
  {
    var n := |attempts| - 1;
    if i < n {
      SharesAddUp(attempts[..n], i, m);
    } else if n > 0 {
      SharesAddUp(attempts[..n], 0, m);
      assert Share(attempts[0], m) >= 0;
    }
  }

  lemma ShareWithinTotal(s: Shared, attempts: seq<Attempt>, i: nat, m: Meter)
    requires i < |attempts|
    requires forall k :: 0 <= k < |attempts| ==> AttemptFits(s, attempts[k])
    ensures 0 <= Share(attempts[i], m) <= Total(attempts, m)
  {
    forall k | 0 <= k < |attempts|
      ensures Share(attempts[k], m) >= 0
    {
      ShareIsNotNegative(s, attempts[k], m);
    }
    SharesAddUp(attempts, i, m);
  }

  // ---------- what an operation does to the stores ----------

  /** The conditions under which the protocol issues an operation; each is met without error. */
  predicate Enabled(s: Shared, op: Op) {
    match op
    case TakeBudget(id, amount) => Budget.Reserve(s.ledger, id, amount).Ok?
        && Budget.Reserve(s.ledger, id, amount).value.1
    case GiveBudget(id, amount) => Budget.Release(s.ledger, id, amount).Ok?
    case SpendBudget(id, amount) => Budget.Commit(s.ledger, id, amount).Ok?
    case AskGrant(id, maxUses, granted) => granted == GrantStore.Reserve(s.grants, id, maxUses).1
    case GiveGrant(id) => GrantStore.Reserved(s.grants, id)
    case UseGrant(id, key, _) => GrantStore.Reserved(s.grants, id) && SettledKey(s, key)
    case Backfill(key, _) => SettledKey(s, key)
    case Store(id, target, _) => Legal(Stored(s.lifecycle, id), target)
    case _ => true
  }

  /** How an operation moves a meter. */
  function Delta(op: Op, m: Meter): int {
    match op
    case TakeBudget(id, amount) => if m == BudgetHeld(id) then amount else 0
    case GiveBudget(id, amount) => if m == BudgetHeld(id) then -amount else 0
    case SpendBudget(id, amount) => if m == BudgetHeld(id) then -amount else if m == BudgetSpent(id) then amount else 0
    case AskGrant(id, _, granted) => if m == GrantHeld(id) && granted then 1 else 0
    case GiveGrant(id) => if m == GrantHeld(id) then -1 else 0
    case UseGrant(id, _, _) => if m == GrantHeld(id) then -1 else if m == GrantUsed(id) then 1 else 0
    case _ => 0
  }

  lemma OpMetered(s: Shared, op: Op, m: Meter)
    requires Enabled(s, op)
    ensures Reading(SharedAfter(s, op), m) == Reading(s, m) + Delta(op, m)
  {
  }

  lemma OpKeepsSound(s: Shared, op: Op)
    requires StoresSound(s) && Enabled(s, op)
    ensures StoresSound(SharedAfter(s, op))
  {
    OpKeepsGrants(s.grants, op);
    OpKeepsLedger(s, op);
    if op.Pass? {
      Pay.SubmitKeeps(s.provider, op.key, op.payment);
    }
  }

  lemma OpKeepsGrants(g: GrantStore.Grants, op: Op)
    requires GrantsSound(g)
    ensures GrantsSound(GrantsAfter(g, op))
  {
  }

  lemma OpKeepsLedger(s: Shared, op: Op)
    requires Budget.Sound(s.ledger) && Enabled(s, op)
    ensures Budget.Sound(LedgerAfter(s.ledger, op))
  {
  }

  /** An attempt keeps its standing while others operate, unless its own intent is abandoned. */
  lemma OpKeepsOthers(s: Shared, op: Op, b: Attempt)
    requires StoresSound(s) && StoresFit(s, b) && Enabled(s, op)
    requires op.Abandon? && b.job.Commit? ==> op.key != b.job.manifest.key || !ProfileOf(b.at).open
    ensures StoresFit(SharedAfter(s, op), b)
  {
    OpKeepsIntent(s, op, b);
    OpKeepsCharge(s, op, b);
    if op.Pass? {
      Pay.SubmitKeeps(s.provider, op.key, op.payment);
    }
  }

  lemma OpKeepsIntent(s: Shared, op: Op, b: Attempt)
    requires IntentStands(s, b)
    requires op.Abandon? && b.job.Commit? ==> op.key != b.job.manifest.key || !ProfileOf(b.at).open
    ensures IntentStands(SharedAfter(s, op), b)
  {
  }

  lemma OpKeepsCharge(s: Shared, op: Op, b: Attempt)
    requires ChargeFits(s, b)
    ensures ChargeFits(SharedAfter(s, op), b)
  {
  }

  /** The account that an operation leaves, from the account it starts with. */
  predicate AccountMoves(c: Account, d: Account, op: Op) {
    match op
    case TakeBudget(id, amount) => c.heldCharge == None && d == c.(heldCharge := Some((id, amount)))
    case GiveBudget(id, amount) => c.heldCharge == Some((id, amount)) && d == c.(heldCharge := None)
    case SpendBudget(id, amount) =>
      c.heldCharge == Some((id, amount)) && c.spentCharge == None &&
      d == c.(heldCharge := None, spentCharge := Some((id, amount)))
    case AskGrant(id, _, granted) => if granted then c.heldGrant == None && d == c.(heldGrant := Some(id)) else d == c
    case GiveGrant(id) => c.heldGrant == Some(id) && d == c.(heldGrant := None)
    case UseGrant(id, _, _) =>
      c.heldGrant == Some(id) && c.usedGrant == None && d == c.(heldGrant := None, usedGrant := Some(id))
    case _ => d == c
  }

  lemma AccountMetered(a: Attempt, b: Attempt, op: Op, m: Meter)
    requires AccountMoves(AccountOf(a), AccountOf(b), op)
    ensures Share(b, m) == Share(a, m) + Delta(op, m)
  {
  }

  // ---------- what an attempt does ----------

  /** The reservations of the acting attempt are among those the stores hold. */
  predicate Covered(x: Scene) {
    && (x.a.charge.Some? && ProfileOf(x.a.at).budget ==>
          x.a.charge.value.1 <= Budget.Held(x.shared.ledger, x.a.charge.value.0))
    && (x.a.job.Commit? && ProfileOf(x.a.at).grant ==> GrantStore.Reserved(x.shared.grants, x.a.job.grant.id))
  }

  predicate Ready(x: Scene) {
    AttemptFits(x.shared, x.a) && Covered(x)
  }

  /** What a move claims for its attempt, it has just read in the stores. */
  predicate Earned(x: Scene, m: Move) {
    && (ProfileOf(m.next).open && !ProfileOf(x.a.at).open && x.shared.outbox.Some? && x.a.job.Commit? ==>
          && m.op == Intend(x.a.job.manifest.key, x.a.job.grant.id, x.a.job.manifest)
          && Outbox.RecordPending(x.shared.outbox.value, m.op.key, m.op.id, m.op.manifest).Some?)
    && (m.next.Backfilling? && x.a.job.Recover? ==> Observed(x.shared, x.a.job.manifest))
    && (m.op.TakeBudget? ==> ChargeFits(x.shared, AttemptAfter(x.a, m)))
    && (m.op.Adopt? && x.a.job.Commit? ==> x.a.job.manifest.key in x.shared.grants.outcomes)
    && (m.op.Pass? && m.op.success && x.a.job.Commit? ==>
          && m.op.key == x.a.job.manifest.key
          && Pay.CommitReplyOf(Pay.Submit(x.shared.provider, m.op.key, m.op.payment).1).Success?)
    && (m.op.Store? ==> x.a.at.Moving? && m.op.id == ManifestId(x.a.job) && m.op.target == Target(x.a.job, x.a.at.goal))
    && (m.op.Abandon? ==>
          && x.a.job.Commit? && x.a.at.FailingIntent? && x.shared.outbox.Some?
          && m.op.key == x.a.job.manifest.key && !ProfileOf(m.next).open)
  }

  /** A move is sound: its operation is met without error, and the account of the attempt
      moves exactly as the stores do. */
  predicate SoundMove(x: Scene, m: Move) {
    && Enabled(x.shared, m.op)
    && ShapeFits(AttemptAfter(x.a, m))
    && AccountMoves(AccountOf(x.a), AccountOf(AttemptAfter(x.a, m)), m.op)
    && Earned(x, m)
  }

  /** A transition that raises gives its attempt back as it was. */
  lemma RaisingSound(x: Scene, op: Op)
    requires Ready(x) && x.a.at.Moving? && !x.a.at.phase.Audit? && (op.Skip? || op.Remember?)
    ensures SoundMove(x, Do(op, Raised(x.a.at.goal)))
  {
  }

  /** The compare-and-set that finds what it expects, whether or not its reply is lost. */
  lemma StoringSound(x: Scene, fault: Fault)
    requires Ready(x) && x.a.at.Moving? && (x.a.at.phase.CasAbsent? || x.a.at.phase.CasFrom?)
    requires Stored(x.shared.lifecycle, ManifestId(x.a.job)) == x.a.at.phase.from
    ensures SoundMove(x, WriteMove(
                           x.a.at.goal, ManifestId(x.a.job), x.a.at.phase.from, Target(x.a.job, x.a.at.goal), fault))
  {
    match fault
    case Fine => StoredSound(x);
    case Raises => RaisingSound(x, Remember(ManifestId(x.a.job), x.a.at.phase.from));
    case Late => LostSound(x);
  }

  lemma StoredSound(x: Scene)
    requires Ready(x) && x.a.at.Moving? && (x.a.at.phase.CasAbsent? || x.a.at.phase.CasFrom?)
    requires Stored(x.shared.lifecycle, ManifestId(x.a.job)) == x.a.at.phase.from
    ensures SoundMove(x, Do(Store(ManifestId(x.a.job), Target(x.a.job, x.a.at.goal), None), Moving(x.a.at.goal, Audit)))
  {
  }

  lemma LostSound(x: Scene)
    requires Ready(x) && x.a.at.Moving? && (x.a.at.phase.CasAbsent? || x.a.at.phase.CasFrom?)
    requires Stored(x.shared.lifecycle, ManifestId(x.a.job)) == x.a.at.phase.from
    ensures SoundMove(x, Do(Store(ManifestId(x.a.job), Target(x.a.job, x.a.at.goal), Some(x.a.at.phase.from)),
                            Raised(x.a.at.goal)))
  {
  }

  // One lemma per point of the protocol.

  lemma ReadSound(x: Scene, fault: Fault)
    requires Ready(x) && x.a.at.Moving? && x.a.at.phase.Read?
    ensures SoundMove(x, TransitionMove(x, x.a.at.goal, x.a.at.phase, fault))
  {
    if !fault.Fine? {
      RaisingSound(x, Skip);
    } else if !Legal(Known(x, ManifestId(x.a.job)), Target(x.a.job, x.a.at.goal)) {
      RaisingSound(x, Remember(ManifestId(x.a.job), Known(x, ManifestId(x.a.job))));
    }
  }

  lemma LookSound(x: Scene, fault: Fault)
    requires Ready(x) && x.a.at.Moving? && x.a.at.phase.Look?
    ensures SoundMove(x, TransitionMove(x, x.a.at.goal, x.a.at.phase, fault))
  {
    RaisingSound(x, Remember(ManifestId(x.a.job), x.a.at.phase.from));
  }

  lemma CasAbsentSound(x: Scene, fault: Fault)
    requires Ready(x) && x.a.at.Moving? && x.a.at.phase.CasAbsent?
    ensures SoundMove(x, TransitionMove(x, x.a.at.goal, x.a.at.phase, fault))
  {
    RaisingSound(x, Remember(ManifestId(x.a.job), x.a.at.phase.from));
    if ManifestId(x.a.job) !in x.shared.lifecycle {
      StoringSound(x, fault);
    }
  }

  lemma CasFromSound(x: Scene, fault: Fault)
    requires Ready(x) && x.a.at.Moving? && x.a.at.phase.CasFrom?
    ensures SoundMove(x, TransitionMove(x, x.a.at.goal, x.a.at.phase, fault))
  {
    var id, from := ManifestId(x.a.job), x.a.at.phase.from;
    if id in x.shared.lifecycle && x.shared.lifecycle[id] == from {
      StoringSound(x, fault);
    } else {
      RaisingSound(x, Remember(id, from));
    }
  }

  lemma AuditSound(x: Scene, fault: Fault)
    requires Ready(x) && x.a.at.Moving? && x.a.at.phase.Audit?
    ensures SoundMove(x, TransitionMove(x, x.a.at.goal, x.a.at.phase, fault))
  {
  }

  lemma CheckingSound(x: Scene, fault: Fault)
    requires Ready(x) && x.a.job.Commit? && x.a.at.Checking?
    ensures SoundMove(x, HandledMove(x, x.a.job.manifest, x.a.job.grant, fault))
  {
  }

  lemma RecordingIntentSound(x: Scene, fault: Fault)
    requires Ready(x) && x.a.job.Commit? && x.a.at.RecordingIntent?
    ensures SoundMove(x, HandledMove(x, x.a.job.manifest, x.a.job.grant, fault))
  {
  }

  lemma ValidatingSound(x: Scene, fault: Fault)
    requires Ready(x) && x.a.job.Commit? && x.a.at.Validating?
    ensures SoundMove(x, HandledMove(x, x.a.job.manifest, x.a.job.grant, fault))
  {
  }

  /** The adapter failed or raised, before or after the effect: nothing is claimed. */
  lemma CallFailsSoundly(x: Scene, abandon: bool, sent: bool)
    requires Ready(x) && x.a.job.Commit? && x.a.at.Calling?
    ensures var op := if sent then Pass(x.a.job.manifest.key, x.a.job.manifest.payment, false) else Skip;
            SoundMove(x, Do(op, FailingGrant(abandon)))
  {
  }

  lemma CallSucceedsSoundly(x: Scene, reference: string)
    requires Ready(x) && x.a.job.Commit? && x.a.at.Calling?
    requires Pay.CommitReplyOf(Pay.Submit(x.shared.provider, x.a.job.manifest.key, x.a.job.manifest.payment).1).Success?
    ensures SoundMove(x, Do(Pass(x.a.job.manifest.key, x.a.job.manifest.payment, true), SpendingBudget(reference)))
  {
  }

  lemma CallingSound(x: Scene, fault: Fault)
    requires Ready(x) && x.a.job.Commit? && x.a.at.Calling?
    ensures SoundMove(x, HandledMove(x, x.a.job.manifest, x.a.job.grant, fault))
  {
    var m := x.a.job.manifest;
    CallFailsSoundly(x, false, fault.Late?);
    if fault.Fine? {
      match Pay.CommitReplyOf(Pay.Submit(x.shared.provider, m.key, m.payment).1)
      case Success(reference) => CallSucceedsSoundly(x, OutcomeRef(reference));
      case Failure => CallFailsSoundly(x, true, true);
      case Exception => CallFailsSoundly(x, false, true);
    }
  }

  lemma ReservingBudgetSound(x: Scene)
    requires Ready(x) && x.a.job.Commit? && x.a.at.ReservingBudget?
    ensures PlannedSoundly(x)
  {
  }

  lemma ReservingGrantSound(x: Scene)
    requires Ready(x) && x.a.job.Commit? && x.a.at.ReservingGrant?
    ensures PlannedSoundly(x)
  {
  }

  lemma RefusedGrantSound(x: Scene)
    requires Ready(x) && x.a.job.Commit? && x.a.at.RefusedGrant?
    ensures PlannedSoundly(x)
  {
  }

  lemma UndoingGrantSound(x: Scene)
    requires Ready(x) && x.a.job.Commit? && x.a.at.UndoingGrant?
    ensures PlannedSoundly(x)
  {
  }

  lemma UndoingBudgetSound(x: Scene)
    requires Ready(x) && x.a.job.Commit? && x.a.at.UndoingBudget?
    ensures PlannedSoundly(x)
  {
  }

  lemma ConsultingSound(x: Scene)
    requires Ready(x) && x.a.job.Commit? && x.a.at.Consulting?
    ensures PlannedSoundly(x)
  {
  }

  lemma ReplayBudgetSound(x: Scene)
    requires Ready(x) && x.a.job.Commit? && x.a.at.ReplayBudget?
    ensures PlannedSoundly(x)
  {
  }

  lemma ReplayIntentSound(x: Scene)
    requires Ready(x) && x.a.job.Commit? && x.a.at.ReplayIntent?
    ensures PlannedSoundly(x)
  {
  }

  lemma ReplayGrantSound(x: Scene)
    requires Ready(x) && x.a.job.Commit? && x.a.at.ReplayGrant?
    ensures PlannedSoundly(x)
  {
  }

  lemma FailingGrantSound(x: Scene)
    requires Ready(x) && x.a.job.Commit? && x.a.at.FailingGrant?
    ensures PlannedSoundly(x)
  {
  }

  lemma FailingBudgetSound(x: Scene)
    requires Ready(x) && x.a.job.Commit? && x.a.at.FailingBudget?
    ensures PlannedSoundly(x)
  {
  }

  lemma FailingIntentSound(x: Scene)
    requires Ready(x) && x.a.job.Commit? && x.a.at.FailingIntent?
    ensures PlannedSoundly(x)
  {
  }

  lemma SpendingBudgetSound(x: Scene)
    requires Ready(x) && x.a.job.Commit? && x.a.at.SpendingBudget?
    ensures PlannedSoundly(x)
  {
  }

  lemma ConfirmingIntentSound(x: Scene)
    requires Ready(x) && x.a.job.Commit? && x.a.at.ConfirmingIntent?
    ensures PlannedSoundly(x)
  {
  }

  lemma SpendingGrantSound(x: Scene)
    requires Ready(x) && x.a.job.Commit? && x.a.at.SpendingGrant?
    ensures PlannedSoundly(x)
  {
  }

  lemma ProbingSound(x: Scene)
    requires Ready(x) && x.a.job.Recover? && x.a.at.Probing?
    ensures SoundMove(x, RecoverMove(x, x.a.job.manifest))
  {
  }

  lemma BackfillingSound(x: Scene)
    requires Ready(x) && x.a.job.Recover? && x.a.at.Backfilling?
    ensures SoundMove(x, RecoverMove(x, x.a.job.manifest))
  {
  }

  lemma PeekingSound(x: Scene)
    requires Ready(x) && x.a.job.Recover? && x.a.at.Peeking?
    ensures SoundMove(x, RecoverMove(x, x.a.job.manifest))
  {
  }

  lemma ConfirmingSound(x: Scene)
    requires Ready(x) && x.a.job.Recover? && x.a.at.Confirming?
    ensures SoundMove(x, RecoverMove(x, x.a.job.manifest))
  {
  }

  lemma DecidingSound(x: Scene)
    requires Ready(x) && x.a.job.Recover? && x.a.at.Deciding?
    ensures SoundMove(x, RecoverMove(x, x.a.job.manifest))
  {
  }

  /** The move of a call that does not raise is sound and leads neither astray nor out of the engine
      by an exception. */
  predicate PlannedSoundly(x: Scene)
    requires x.a.job.Commit?
  {
    var m := CommitMove(x, x.a.job.manifest, x.a.job.grant);
    SoundMove(x, m) && !m.next.Stuck? && !m.next.Thrown?
  }

  lemma PlanSound(x: Scene)
    requires Ready(x) && x.a.job.Commit? && !x.a.at.Moving? && !Handled(x.a.at) && !x.a.at.Done? && !x.a.at.Thrown?
    ensures PlannedSoundly(x)
  {
    match x.a.at
    case ReservingBudget => ReservingBudgetSound(x);
    case ReservingGrant => ReservingGrantSound(x);
    case RefusedGrant => RefusedGrantSound(x);
    case UndoingGrant => UndoingGrantSound(x);
    case UndoingBudget => UndoingBudgetSound(x);
    case Consulting => ConsultingSound(x);
    case ReplayBudget(_) => ReplayBudgetSound(x);
    case ReplayIntent(_) => ReplayIntentSound(x);
    case ReplayGrant(_) => ReplayGrantSound(x);
    case FailingGrant(_) => FailingGrantSound(x);
    case FailingBudget(_) => FailingBudgetSound(x);
    case FailingIntent => FailingIntentSound(x);
    case SpendingBudget(_) => SpendingBudgetSound(x);
    case ConfirmingIntent(_) => ConfirmingIntentSound(x);
    case SpendingGrant(_) => SpendingGrantSound(x);
  }

  /** Being thrown out changes neither the shape nor the account of an attempt. */
  lemma ThrownKeepsShape(a: Attempt)
    requires ShapeFits(a) && a.job.Commit? && !a.at.Stuck? && !a.at.Thrown?
    ensures ShapeFits(a.(at := Thrown(a.at))) && AccountOf(a.(at := Thrown(a.at))) == AccountOf(a)
  {
  }

  /** So a raise that no handler catches is sound wherever the undisturbed call is. */
  lemma InterruptedSound(x: Scene, m: Move, fault: Fault)
    requires Ready(x) && x.a.job.Commit? && !x.a.at.Moving? && !x.a.at.Thrown?
    requires SoundMove(x, m) && !m.next.Stuck? && !m.next.Thrown?
    ensures SoundMove(x, Interrupted(x.a.at, m, fault))
  {
    ThrownKeepsShape(x.a);
    ThrownKeepsShape(AttemptAfter(x.a, m));
    assert AttemptAfter(x.a, Do(m.op, Thrown(m.next))) == AttemptAfter(x.a, m).(at := Thrown(m.next));
    assert AttemptAfter(x.a, Do(Skip, Thrown(x.a.at))) == x.a.(at := Thrown(x.a.at));
  }

  lemma HandledSound(x: Scene, fault: Fault)
    requires Ready(x) && x.a.job.Commit? && Handled(x.a.at)
    ensures SoundMove(x, HandledMove(x, x.a.job.manifest, x.a.job.grant, fault))
  {
    match x.a.at
    case Checking => CheckingSound(x, fault);
    case RecordingIntent => RecordingIntentSound(x, fault);
    case Validating => ValidatingSound(x, fault);
    case Calling => CallingSound(x, fault);
  }

  lemma StayingSound(x: Scene)
    requires Ready(x) && (x.a.at.Done? || x.a.at.Thrown?)
    ensures SoundMove(x, Do(Skip, x.a.at))
  {
  }

  lemma EndedSound(x: Scene, m: Move, fault: Fault)
    requires Ready(x) && x.a.job.Recover? && SoundMove(x, m)
    ensures SoundMove(x, Ended(m, fault))
  {
  }

  lemma RecoverSound(x: Scene)
    requires Ready(x) && x.a.job.Recover? && !x.a.at.Moving?
    ensures SoundMove(x, RecoverMove(x, x.a.job.manifest))
  {
    match x.a.at
    case Probing => ProbingSound(x);
    case Backfilling => BackfillingSound(x);
    case Peeking => PeekingSound(x);
    case Confirming => ConfirmingSound(x);
    case Deciding => DecidingSound(x);
    case Done => StayingSound(x);
  }

  lemma TransitionSound(x: Scene, fault: Fault)
    requires Ready(x) && x.a.at.Moving?
    ensures SoundMove(x, TransitionMove(x, x.a.at.goal, x.a.at.phase, fault))
  {
    match x.a.at.phase
    case Read => ReadSound(x, fault);
    case Look(_) => LookSound(x, fault);
    case CasAbsent(_) => CasAbsentSound(x, fault);
    case CasFrom(_) => CasFromSound(x, fault);
    case Audit => AuditSound(x, fault);
  }

  lemma MoveSound(x: Scene, fault: Fault)
    requires Ready(x)
    ensures SoundMove(x, NextMove(x, fault))
  {
    if x.a.at.Moving? {
      TransitionSound(x, fault);
    } else if x.a.at.Done? || x.a.at.Thrown? {
      StayingSound(x);
    } else if x.a.job.Recover? {
      RecoverSound(x);
      EndedSound(x, RecoverMove(x, x.a.job.manifest), fault);
    } else if Handled(x.a.at) {
      HandledSound(x, fault);
    } else {
      PlanSound(x);
      InterruptedSound(x, CommitMove(x, x.a.job.manifest, x.a.job.grant), fault);
    }
  }

  /** The acting attempt still fits the stores after its own move. */
  lemma ActorFits(x: Scene, m: Move)
    requires Ready(x) && StoresSound(x.shared) && SoundMove(x, m)
    ensures StoresFit(Carry(x, m).shared, Carry(x, m).a)
  {
    if m.op.Abandon? {
      OpKeepsOthers(x.shared, m.op, x.a.(at := m.next));
    } else {
      OpKeepsOthers(x.shared, m.op, x.a);
    }
  }
}
