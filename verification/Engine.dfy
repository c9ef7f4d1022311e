/** The engine object: the sequential code of a lifecycle transition, of commit and of recovery. Every
    store, journal and adapter call is preceded by whatever other parties do to the shared stores, and
    may raise by itself, with or without having taken effect. Each method is proved to take exactly the
    steps of the protocol machine. */
module Engine {
  import opened Wrappers
  import opened Faults
  import opened Lifecycle
  import opened CommitProtocol
  import opened EngineTrace
  import opened EngineMemory
  import opened EngineSteps
  import opened Stores
  import Budget
  import BudgetLedger
  import GrantStore
  import Outbox
  import Pay = PaymentSimulator
  import RecoveryEndings
  import Revocation

  /** How a transition ends. NotStored also stands for a write whose reply was lost. */
  datatype Moved = Allowed | Illegal | NotRead | NotStored | NotAudited

  /** What the look before a durable write found: nothing readable, no row for a fresh record, or a row
      that is expected to hold the state the record came from. */
  datatype Row = Unreadable | NoRow | Expected

  /** How a compare-and-set ends: it went through, it did not, it went through and its reply was lost, or
      another row was in the way of an insert. */
  datatype Write = Wrote | Missed | Lost | InTheWay

  /** How a store call ends whose exception nothing catches. */
  datatype Answer = Yes | No | Threw

  /** How commit ends: a denial, an exception on the way, the adapter's own refusal, a success, or the
      answer of an earlier success. */
  datatype Verdict = Denied | Raising | Refused | Committed(reference: string) | Replayed(reference: string)

  /** What the caller of commit may be told, against what happened to the call, what the adapter answered and
      where memory has the manifest. A success is told only when the adapter reported it, with its reference,
      and a replay only when there was one, and then memory says COMMITTED; a failure is told only when the
      adapter reported it, and then memory says FAILED. A denial is told when the adapter was not reached or
      raised. */
  predicate Truthful(r: Verdict, a: Attempt, answered: Option<Pay.CommitReply>, memory: Option<State>) {
    match r
    case Committed(reference) =>
      && a.succeeded && !a.replayed && a.at.Done? && memory == Some(State.Committed)
      && answered.Some? && answered.value.Success? && reference == OutcomeRef(answered.value.reference)
    case Replayed(_) => a.replayed && !a.succeeded && a.at.Done? && memory == Some(State.Committed) && answered == None
    case Refused =>
      !a.succeeded && !a.replayed && a.at.Done? && memory == Some(State.Failed) && answered == Some(Pay.Failure)
    case Denied => !a.succeeded && !a.replayed && (answered == None || answered == Some(Pay.Exception))
    case Raising => true
  }

  /** What a transition leaves in the engine's memory: the target exactly when the durable write is known
      to have gone through, and otherwise the state the record had, never a state ahead of the store. */
  predicate MemoryAfter(
    r: Moved, id: string, from: State, target: State, before: map<string, State>, after: map<string, State>)
  {
    && (r != NotRead && id in before ==> from == before[id])
    && match r
       case NotRead => after == before
       case Illegal => after == before[id := from] && !Legal(from, target)
       case NotStored => after == before[id := from] && Legal(from, target)
       case Allowed => after == before[id := target] && Legal(from, target)
       case NotAudited => after == before[id := target] && Legal(from, target)
  }

  lemma Overwrites(m: map<string, State>, id: string, a: State, b: State)
    ensures m[id := a][id := b] == m[id := b]
  {
  }

  class KarmaSakshiEngine {
    const number: nat
    var records: map<string, State>
    const lifecycle: InMemoryLifecycleStore
    const grants: InMemoryGrantStore
    const outbox: InMemoryOutboxStore?<Manifest>
    const ledger: BudgetLedger.InMemoryBudgetLedger
    const provider: Pay.PaymentSimulator
    // The call in progress, as steps of the protocol machine.
    ghost var trace: seq<Seen>
    ghost var scenes: seq<Scene>
    ghost var scene: Scene
    // What the adapter answered in the call in progress, and the stores as its recovery probe found them.
    ghost var answered: Option<Pay.CommitReply>
    ghost var probed: Option<Shared>

    constructor (number: nat, lifecycle: InMemoryLifecycleStore, grants: InMemoryGrantStore,
                 outbox: InMemoryOutboxStore?<Manifest>, ledger: BudgetLedger.InMemoryBudgetLedger,
                 provider: Pay.PaymentSimulator)
      ensures this.number == number && this.lifecycle == lifecycle && this.grants == grants
      ensures this.outbox == outbox && this.ledger == ledger && this.provider == provider && records == map[]
    {
      this.number, this.lifecycle, this.grants := number, lifecycle, grants;
      this.outbox, this.ledger, this.provider := outbox, ledger, provider;
      records := map[];
    }

    ghost function Stores(): set<object> {
      {lifecycle, grants, ledger, provider} + if outbox == null then {} else {outbox}
    }

    ghost function View(): Shared
      reads Stores()
    {
      Shared(lifecycle.states, grants.View(), if outbox == null then None else Some(outbox.entries),
             ledger.View(), provider.View())
    }

    /** The call so far went through the recorded scenes, and memory is where the machine has it. */
    ghost predicate Valid()
      reads this, Stores()
    {
      Passed(scenes, trace) && scene == scenes[|trace|] && scene.records == records && ledger.Valid()
    }

    ghost predicate At(at: Point)
      reads this, Stores()
    {
      Valid() && scene.a.at == at
    }

    /** The call in progress at the stores as they are now. */
    ghost function Found(): Scene
      reads this, Stores()
    {
      Scene(View(), scene.records, scene.a)
    }

    ghost method Note(found: Shared, fault: Fault)
      requires Passed(scenes, trace) && scene == scenes[|trace|]
      modifies this`trace, this`scenes, this`scene
      ensures Passed(scenes, trace) && scene == scenes[|trace|] && scenes[0] == old(scenes[0])
      ensures scene == Step(Scene(found, old(scene).records, old(scene).a), fault)
    {
      PassedOn(scenes, trace, Seen(found, fault));
      scene := Step(Scene(found, scene.records, scene.a), fault);
      scenes, trace := scenes + [scene], trace + [Seen(found, fault)];
    }

    ghost method Begin(job: Job)
      requires ledger.Valid()
      modifies this`trace, this`scenes, this`scene, this`answered, this`probed
      ensures Valid() && scenes[0] == scene == Scene(View(), records, Launch(number, job))
      ensures answered == None && probed == None
    {
      answered, probed := None, None;
      scene := Scene(View(), records, Launch(number, job));
      scenes, trace := [scene], [];
    }

    /** Other engines and operators use the shared stores. */
    method Interfere()
      requires ledger.Valid()
      modifies Stores()
      ensures ledger.Valid()
    {
      var calls: int := *;
      for i := 0 to if calls < 0 then 0 else calls
        invariant ledger.Valid()
      {
        var which: int, id: string, key: string, amount: int := *, *, *, *;
        var expected: Option<State>, target: State := *, *;
        if which == 0 {
          var _ := lifecycle.CompareAndSet(id, expected, target);
        } else if which == 1 {
          var _ := grants.Reserve(id, amount);
        } else if which == 2 {
          grants.Release(id);
        } else if which == 3 {
          var _ := grants.Finalize(id, key, key);
        } else if which == 4 {
          grants.Revoke(id);
        } else if which == 5 {
          var _ := ledger.Reserve(id, amount);
        } else if which == 6 {
          var _ := ledger.Release(id, amount);
        } else if which == 7 {
          var _ := ledger.Commit(id, amount);
        } else if which == 8 && outbox != null {
          var _ := outbox.MarkConfirmed(key);
        } else if which == 9 && outbox != null {
          var _ := outbox.MarkAbandoned(key);
        } else {
          provider.FundAccount(id, amount);
        }
      }
    }

    // ---------- the lifecycle transition ----------

    /** The cached record, or the stored one, or a fresh one. */
    method GetRecord(id: string) returns (state: State)
      modifies this`records
      ensures state == if id in old(records) then old(records)[id] else Stored(lifecycle.states, id)
      ensures records == old(records)[id := state]
    {
      if id in records {
        state := records[id];
      } else {
        var stored := lifecycle.Get(id);
        state := if stored.Some? then stored.value else Proposed;
      }
      records := records[id := state];
    }

    /** Reads the record and, where the edge is legal, advances it in memory. */
    method AdvanceRecord(goal: Goal, id: string, target: State) returns (r: Moved, from: State)
      requires At(Moving(goal, Read)) && id == ManifestId(scene.a.job) && target == Target(scene.a.job, goal)
      modifies this`records, this`trace, this`scenes, this`scene, Stores()
      ensures Valid() && scenes[0] == old(scenes[0])
      ensures r == Allowed ==>
                scene.a == old(scene).a.(at := Moving(goal, Look(from))) && records == old(records)[id := target]
      ensures r == Illegal ==> scene.a == old(scene).a.(at := Raised(goal)) && records == old(records)[id := from]
      ensures r == NotRead ==> scene.a == old(scene).a.(at := Raised(goal)) && records == old(records)
      ensures r != NotRead ==>
                (r == Allowed <==> Legal(from, target)) && (id in old(records) ==> from == old(records)[id])
      ensures r == NotRead || r == Illegal || r == Allowed
    {
      Interfere();
      ghost var x := Found();
      var fault: Fault := *;
      r, from := NotRead, Proposed;
      ReadStep(x, goal, fault);
      if fault.Fine? {
        from := GetRecord(id);
        r := Illegal;
        if Legal(from, target) {
          r := Allowed;
          Overwrites(old(records), id, from, target);
          records := records[id := target];
        }
      }
      Note(x.shared, fault);
    }

    /** The durable write, inserting a first row or replacing the expected one; when it raises, or does
        not happen, the in-memory record goes back to the state it came from. */
    method Persist(goal: Goal, id: string, from: State, target: State) returns (r: Write)
      requires At(Moving(goal, Look(from))) && id == ManifestId(scene.a.job) && target == Target(scene.a.job, goal)
      requires id in records && records[id] == target
      modifies this`records, this`trace, this`scenes, this`scene, Stores()
      ensures Valid() && scenes[0] == old(scenes[0])
      ensures scene.a == Landed(old(scene).a, goal, r != Missed, r == Wrote)
      ensures records == if r == Wrote then old(records) else old(records)[id := from]
      ensures r != InTheWay
    {
      LandedForgetsPoint(scene.a, Moving(goal, CasAbsent(from)), goal);
      LandedForgetsPoint(scene.a, Moving(goal, CasFrom(from)), goal);
      var row := LookUp(goal, id, from);
      match row
      case Unreadable => r := Missed;
      case NoRow => r := InsertOrReplace(goal, id, from, target);
      case Expected => r := Replace(goal, id, from, target);
    }

    method InsertOrReplace(goal: Goal, id: string, from: State, target: State) returns (r: Write)
      requires At(Moving(goal, CasAbsent(from))) && id == ManifestId(scene.a.job) && target == Target(scene.a.job, goal)
      modifies this`records, this`trace, this`scenes, this`scene, Stores()
      ensures Valid() && scenes[0] == old(scenes[0])
      ensures scene.a == Landed(old(scene).a, goal, r != Missed, r == Wrote)
      ensures records == if r == Wrote then old(records) else old(records)[id := from]
      ensures r != InTheWay
    {
      LandedForgetsPoint(scene.a, Moving(goal, CasFrom(from)), goal);
      r := InsertFirst(goal, id, from, target);
      if r == InTheWay {
        r := Replace(goal, id, from, target);
      }
    }

    method LookUp(goal: Goal, id: string, from: State) returns (r: Row)
      requires At(Moving(goal, Look(from))) && id == ManifestId(scene.a.job)
      modifies this`records, this`trace, this`scenes, this`scene, Stores()
      ensures Valid() && scenes[0] == old(scenes[0])
      ensures r == Unreadable ==> scene.a == old(scene).a.(at := Raised(goal)) && records == old(records)[id := from]
      ensures r == NoRow ==> scene.a == old(scene).a.(at := Moving(goal, CasAbsent(from))) && records == old(records)
      ensures r == Expected ==> scene.a == old(scene).a.(at := Moving(goal, CasFrom(from))) && records == old(records)
    {
      Interfere();
      ghost var x := Found();
      var fault: Fault := *;
      LookStep(x, goal, from, fault);
      if !fault.Fine? {
        records := records[id := from];
        Note(x.shared, fault);
        return Unreadable;
      }
      var stored := lifecycle.Get(id);
      Note(x.shared, Fine);
      return if stored.None? && from == Proposed then NoRow else Expected;
    }

    /** The first of the two writes: insert where there is no row. A row that appeared meanwhile is
        left to the second write. */
    method InsertFirst(goal: Goal, id: string, from: State, target: State) returns (r: Write)
      requires At(Moving(goal, CasAbsent(from))) && id == ManifestId(scene.a.job) && target == Target(scene.a.job, goal)
      modifies this`records, this`trace, this`scenes, this`scene, Stores()
      ensures Valid() && scenes[0] == old(scenes[0])
      ensures r != InTheWay ==>
                && scene.a == Landed(old(scene).a, goal, r != Missed, r == Wrote)
                && records == if r == Wrote then old(records) else old(records)[id := from]
      ensures r == InTheWay ==>
                scene.a == old(scene).a.(at := Moving(goal, CasFrom(from))) && records == old(records)
    {
      Interfere();
      ghost var x := Found();
      var fault: Fault := *;
      var ok := false;
      if !fault.Raises? {
        ok := lifecycle.CompareAndSet(id, None, target);
      }
      InsertOutcome(x, goal, from, fault, ok);
      if !fault.Fine? {
        records := records[id := from];
      }
      Note(x.shared, fault);
      return if fault.Fine? then (if ok then Wrote else InTheWay) else if ok then Lost else Missed;
    }

    method Replace(goal: Goal, id: string, from: State, target: State) returns (r: Write)
      requires At(Moving(goal, CasFrom(from))) && id == ManifestId(scene.a.job) && target == Target(scene.a.job, goal)
      modifies this`records, this`trace, this`scenes, this`scene, Stores()
      ensures Valid() && scenes[0] == old(scenes[0])
      ensures scene.a == Landed(old(scene).a, goal, r != Missed, r == Wrote)
      ensures records == if r == Wrote then old(records) else old(records)[id := from]
      ensures r != InTheWay
    {
      Interfere();
      ghost var x := Found();
      var fault: Fault := *;
      var ok := false;
      if !fault.Raises? {
        ok := lifecycle.CompareAndSet(id, Some(from), target);
      }
      ReplaceOutcome(x, goal, from, fault, ok);
      if !ok || !fault.Fine? {
        records := records[id := from];
      }
      Note(x.shared, fault);
      r := if !ok then Missed else if fault.Fine? then Wrote else Lost;
    }

    method RecordAudit(goal: Goal) returns (ok: bool)
      requires At(Moving(goal, Audit))
      modifies this`trace, this`scenes, this`scene, Stores()
      ensures Valid() && scenes[0] == old(scenes[0])
      ensures scene.a == old(scene).a.(at := if ok then Returned(goal) else Raised(goal))
    {
      Interfere();
      ghost var x := Found();
      var fault: Fault := *;
      AuditStep(x, goal, fault);
      Note(x.shared, fault);
      return fault.Fine?;
    }

    method PersistAndAudit(goal: Goal, id: string, from: State, target: State) returns (r: Moved)
      requires At(Moving(goal, Look(from))) && id == ManifestId(scene.a.job) && target == Target(scene.a.job, goal)
      requires id in records && records[id] == target
      modifies this`records, this`trace, this`scenes, this`scene, Stores()
      ensures Valid() && scenes[0] == old(scenes[0])
      ensures scene.a.at == (if r == Allowed then Returned(goal) else Raised(goal))
      ensures scene.a == old(scene).a.(at := scene.a.at, entered := scene.a.entered)
      ensures records == if r == NotStored then old(records)[id := from] else old(records)
      ensures r == NotStored || r == Allowed || r == NotAudited
    {
      r := NotStored;
      var written := Persist(goal, id, from, target);
      if written == Wrote {
        var audited := RecordAudit(goal);
        r := if audited then Allowed else NotAudited;
      }
    }

    /** Moves a lifecycle: checks the edge in memory, advances the record, writes through, and records
        the audit event. */
    method Transition(goal: Goal, id: string, target: State) returns (r: Moved, from: State)
      requires At(Moving(goal, Read)) && id == ManifestId(scene.a.job) && target == Target(scene.a.job, goal)
      modifies this`records, this`trace, this`scenes, this`scene, Stores()
      ensures Valid() && scenes[0] == old(scenes[0])
      ensures scene.a.at == (if r == Allowed then Returned(goal) else Raised(goal))
      ensures scene.a == old(scene).a.(at := scene.a.at, entered := scene.a.entered)
      ensures MemoryAfter(r, id, from, target, old(records), records)
    {
      r, from := AdvanceRecord(goal, id, target);
      if r.Allowed? {
        Overwrites(old(records), id, target, from);
        r := PersistAndAudit(goal, id, from, target);
      }
    }

    // ---------- commit ----------

    /** A store call raises without effect, and nothing catches it. */
    method ThrowOut()
      requires Valid() && Exposed(Found())
      modifies this`trace, this`scenes, this`scene, Stores()
      ensures Valid() && scenes[0] == old(scenes[0])
      ensures scene.a == old(scene).a.(at := Thrown(old(scene).a.at))
    {
      Interfere();
      ghost var x := Found();
      ThrowStep(x);
      Note(x.shared, Raises);
    }

    /** Everything that is checked before a reservation; a fault also stands for the seal, signature,
        window, policy, envelope and adapter checks. */
    method Admit(manifest: Manifest, grant: Grant) returns (ok: bool)
      requires At(Checking) && scene.a.job == Commit(manifest, grant)
      modifies this`trace, this`scenes, this`scene, Stores()
      ensures Valid() && scenes[0] == old(scenes[0])
      ensures scene.a == old(scene).a.(at := if ok then ReservingBudget else Done)
    {
      Interfere();
      ghost var x := Found();
      var fault: Fault := *;
      CheckStep(x, fault);
      ok := fault.Fine? && grant.boundTo == Some(manifest) && !GrantStore.IsRevoked(grants.View(), grant.id);
      if ok {
        var ancestors := Revocation.AssertNoRevokedAncestors(
          grants.View(), grant.id, grant.parent, Revocation.MAX_DELEGATION_DEPTH);
        ok := ancestors.Ok?;
      }
      Note(x.shared, fault);
    }

    /** Resolves the amount and reserves it on the budget the grant binds, if it binds one. */
    method ReserveBudget(manifest: Manifest, grant: Grant) returns (r: Answer, charge: Option<(string, int)>)
      requires At(ReservingBudget) && scene.a.job == Commit(manifest, grant) && scene.a.charge == None
      modifies this`trace, this`scenes, this`scene, Stores()
      ensures Valid() && scenes[0] == old(scenes[0])
      ensures r == Yes ==> scene.a == old(scene).a.(at := ReservingGrant, charge := charge)
      ensures r == No ==> scene.a == old(scene).a.(at := Done)
      ensures r == Threw ==> scene.a == old(scene).a.(at := scene.a.at, charge := scene.a.charge) && scene.a.at.Thrown?
    {
      if grant.budgetId.Some? {
        r, charge := ReserveBound(manifest, grant);
        return;
      }
      Interfere();
      ghost var x := Found();
      ReserveBudgetStep(x, Fine);
      Note(x.shared, Fine);
      r, charge := Yes, None;
    }

    method ReserveBound(manifest: Manifest, grant: Grant) returns (r: Answer, charge: Option<(string, int)>)
      requires At(ReservingBudget) && scene.a.job == Commit(manifest, grant) && scene.a.charge == None
      requires grant.budgetId.Some?
      modifies this`trace, this`scenes, this`scene, Stores()
      ensures Valid() && scenes[0] == old(scenes[0])
      ensures r == Yes ==> scene.a == old(scene).a.(at := ReservingGrant, charge := charge)
      ensures r == No ==> scene.a == old(scene).a.(at := Done)
      ensures r == Threw ==> scene.a == old(scene).a.(at := scene.a.at, charge := scene.a.charge) && scene.a.at.Thrown?
    {
      var raises: bool := *;
      if raises {
        ThrowOut();
        return Threw, None;
      }
      r, charge := ReserveBoundNow(manifest, grant);
    }

    method ReserveBoundNow(manifest: Manifest, grant: Grant) returns (r: Answer, charge: Option<(string, int)>)
      requires At(ReservingBudget) && scene.a.job == Commit(manifest, grant) && scene.a.charge == None
      requires grant.budgetId.Some?
      modifies this`trace, this`scenes, this`scene, Stores()
      ensures Valid() && scenes[0] == old(scenes[0])
      ensures r == Yes ==> scene.a == old(scene).a.(at := ReservingGrant, charge := charge)
      ensures r == No ==> scene.a == old(scene).a.(at := Done)
      ensures r == Threw ==> scene.a == old(scene).a.(at := scene.a.at, charge := scene.a.charge) && scene.a.at.Thrown?
    {
      Interfere();
      ghost var x := Found();
      var late: bool := *;
      ghost var fault := if late then Late else Fine;
      charge := TakeBudget(grant.budgetId.value, manifest);
      ReserveBudgetOutcome(x, fault, charge);
      Note(x.shared, fault);
      r := if late then Threw else if charge.Some? then Yes else No;
    }

    /** The amount resolved for the manifest, reserved on the ledger; or nothing. */
    method TakeBudget(id: string, manifest: Manifest) returns (charge: Option<(string, int)>)
      requires ledger.Valid()
      modifies ledger
      ensures ledger.Valid()
      ensures var demand := BudgetDemand(old(ledger.View()), id, manifest);
              && charge == (if demand.Ok? then Some((id, demand.value)) else None)
              && (demand.Ok? ==> Budget.Reserve(old(ledger.View()), id, demand.value) == Ok((ledger.View(), true)))
              && (demand.Err? ==> ledger.View() == old(ledger.View()))
    {
      charge := None;
      if id in ledger.budgets {
        var amount := Budget.ConsumeAmount(ledger.budgets[id], manifest.cost);
        if amount.Ok? {
          var reserved := ledger.Reserve(id, amount.value);
          if reserved == Ok(true) {
            charge := Some((id, amount.value));
          }
        }
      }
    }

    /** Takes the grant's reservation slot. A raise leaves the budget reservation behind. */
    method ReserveGrant(manifest: Manifest, grant: Grant) returns (r: Answer)
      requires At(ReservingGrant) && scene.a.job == Commit(manifest, grant)
      modifies this`trace, this`scenes, this`scene, Stores()
      ensures Valid() && scenes[0] == old(scenes[0])
      ensures r == Yes ==> scene.a == old(scene).a.(at := Moving(Enter, Read))
      ensures r == No ==> scene.a == old(scene).a.(at := RefusedGrant)
      ensures r == Threw ==> scene.a == old(scene).a.(at := scene.a.at) && scene.a.at.Thrown?
    {
      var raises: bool := *;
      if raises {
        ThrowOut();
        return Threw;
      }
      r := ReserveGrantNow(manifest, grant);
    }

    method ReserveGrantNow(manifest: Manifest, grant: Grant) returns (r: Answer)
      requires At(ReservingGrant) && scene.a.job == Commit(manifest, grant)
      modifies this`trace, this`scenes, this`scene, Stores()
      ensures Valid() && scenes[0] == old(scenes[0])
      ensures r == Yes ==> scene.a == old(scene).a.(at := Moving(Enter, Read))
      ensures r == No ==> scene.a == old(scene).a.(at := RefusedGrant)
      ensures r == Threw ==> scene.a == old(scene).a.(at := scene.a.at) && scene.a.at.Thrown?
    {
      Interfere();
      ghost var x := Found();
      var late: bool := *;
      ghost var fault := if late then Late else Fine;
      var ok := grants.Reserve(grant.id, grant.maxUses);
      ReserveGrantOutcome(x, fault, ok);
      Note(x.shared, fault);
      r := if late then Threw else if ok then Yes else No;
    }

    /** Gives the budget reservation back, if there is one. No is an error of the ledger. */
    method ReleaseBudget(charge: Option<(string, int)>) returns (r: Answer)
      requires Valid() && Releasing(scene.a.at) && scene.a.job.Commit? && scene.a.charge == charge
      modifies this`trace, this`scenes, this`scene, Stores()
      ensures Valid() && scenes[0] == old(scenes[0])
      ensures r == Yes ==> scene.a == old(scene).a.(at := AfterRelease(old(scene).a.at))
      ensures r == No ==> scene.a == old(scene).a.(at := Stuck(old(scene).a.at))
      ensures r == Threw ==> scene.a == old(scene).a.(at := scene.a.at) && scene.a.at.Thrown?
    {
      if charge.Some? {
        r := ReleaseCharge(charge.value.0, charge.value.1);
        return;
      }
      Interfere();
      ghost var x := Found();
      ReleaseStep(x, Fine);
      Note(x.shared, Fine);
      r := Yes;
    }

    method ReleaseCharge(id: string, amount: int) returns (r: Answer)
      requires Valid() && Releasing(scene.a.at) && scene.a.job.Commit? && scene.a.charge == Some((id, amount))
      modifies this`trace, this`scenes, this`scene, Stores()
      ensures Valid() && scenes[0] == old(scenes[0])
      ensures r == Yes ==> scene.a == old(scene).a.(at := AfterRelease(old(scene).a.at))
      ensures r == No ==> scene.a == old(scene).a.(at := Stuck(old(scene).a.at))
      ensures r == Threw ==> scene.a == old(scene).a.(at := scene.a.at) && scene.a.at.Thrown?
    {
      var raises: bool, late: bool := *, *;
      if raises {
        ThrowOut();
        r := Threw;
      } else if late {
        var ok := ReleaseChargeLate(id, amount);
        r := if ok then Threw else No;
      } else {
        var ok := ReleaseChargeNow(id, amount);
        r := if ok then Yes else No;
      }
    }

    method ReleaseChargeNow(id: string, amount: int) returns (ok: bool)
      requires Valid() && Releasing(scene.a.at) && scene.a.job.Commit? && scene.a.charge == Some((id, amount))
      modifies this`trace, this`scenes, this`scene, Stores()
      ensures Valid() && scenes[0] == old(scenes[0])
      ensures scene.a == old(scene).a.(at := if ok then AfterRelease(old(scene).a.at) else Stuck(old(scene).a.at))
    {
      Interfere();
      ghost var x := Found();
      var error := ledger.Release(id, amount);
      ReleaseOutcome(x, Fine, error.Some?);
      Note(x.shared, Fine);
      ok := error.None?;
    }

    /** The reservation is given back, and the call raises all the same. */
    method ReleaseChargeLate(id: string, amount: int) returns (ok: bool)
      requires Valid() && Releasing(scene.a.at) && scene.a.job.Commit? && scene.a.charge == Some((id, amount))
      modifies this`trace, this`scenes, this`scene, Stores()
      ensures Valid() && scenes[0] == old(scenes[0])
      ensures scene.a ==
                old(scene).a.(at := if ok then Thrown(AfterRelease(old(scene).a.at)) else Stuck(old(scene).a.at))
    {
      Interfere();
      ghost var x := Found();
      var error := ledger.Release(id, amount);
      ReleaseOutcome(x, Late, error.Some?);
      Note(x.shared, Late);
      ok := error.None?;
    }

    method ReleaseGrant(id: string) returns (r: Answer)
      requires Valid() && (scene.a.at.UndoingGrant? || scene.a.at.FailingGrant?)
      requires scene.a.job.Commit? && scene.a.job.grant.id == id
      modifies this`trace, this`scenes, this`scene, Stores()
      ensures Valid() && scenes[0] == old(scenes[0])
      ensures r == Yes ==>
                scene.a == old(scene).a.(
                  at := if old(scene).a.at.UndoingGrant? then UndoingBudget else FailingBudget(old(scene).a.at.abandon))
      ensures r == Threw ==> scene.a == old(scene).a.(at := scene.a.at) && scene.a.at.Thrown?
      ensures r != No
    {
      var raises: bool := *;
      if raises {
        ThrowOut();
        return Threw;
      }
      r := ReleaseGrantNow(id);
    }

    method ReleaseGrantNow(id: string) returns (r: Answer)
      requires Valid() && (scene.a.at.UndoingGrant? || scene.a.at.FailingGrant?)
      requires scene.a.job.Commit? && scene.a.job.grant.id == id
      modifies this`trace, this`scenes, this`scene, Stores()
      ensures Valid() && scenes[0] == old(scenes[0])
      ensures r == Yes ==>
                scene.a == old(scene).a.(
                  at := if old(scene).a.at.UndoingGrant? then UndoingBudget else FailingBudget(old(scene).a.at.abandon))
      ensures r == Threw ==> scene.a == old(scene).a.(at := scene.a.at) && scene.a.at.Thrown?
      ensures r != No
    {
      Interfere();
      ghost var x := Found();
      var late: bool := *;
      ghost var fault := if late then Late else Fine;
      grants.Release(id);
      GiveGrantOutcome(x, fault);
      Note(x.shared, fault);
      r := if late then Threw else Yes;
    }

    method RecordIntent(manifest: Manifest, grant: Grant) returns (ok: bool)
      requires At(RecordingIntent) && scene.a.job == Commit(manifest, grant)
      modifies this`trace, this`scenes, this`scene, Stores()
      ensures Valid() && scenes[0] == old(scenes[0])
      ensures scene.a == old(scene).a.(at := if ok then Consulting else UndoingGrant)
    {
      Interfere();
      ghost var x := Found();
      var fault: Fault := *;
      IntendStep(x, fault);
      if outbox == null {
        Note(x.shared, fault);
        return true;
      }
      ok := false;
      if !fault.Raises? {
        ok := outbox.RecordPending(manifest.key, grant.id, manifest);
      }
      Note(x.shared, fault);
      ok := ok && fault.Fine?;
    }

    /** The outcome recorded for the key by an earlier call, if any. A raise leaves both reservations
        behind. */
    method Consult(key: string) returns (r: Answer, outcome: string)
      requires At(Consulting) && scene.a.job.Commit? && scene.a.job.manifest.key == key
      modifies this`trace, this`scenes, this`scene, Stores()
      ensures Valid() && scenes[0] == old(scenes[0])
      ensures r == Yes ==> scene.a == old(scene).a.(at := ReplayBudget(outcome), replayed := true)
      ensures r == No ==> scene.a == old(scene).a.(at := Validating)
      ensures r == Threw ==> scene.a == old(scene).a.(at := Thrown(Consulting))
    {
      var raises: bool := *;
      if raises {
        ThrowOut();
        return Threw, "";
      }
      Interfere();
      ghost var x := Found();
      ConsultStep(x, Fine);
      r, outcome := No, "";
      if key in grants.outcomes {
        r, outcome := Yes, grants.outcomes[key];
      }
      Note(x.shared, Fine);
    }

    method ConfirmIntent(key: string, ghost reference: string, ghost next: Point) returns (r: Answer)
      requires Valid() && scene.a.job.Commit? && scene.a.job.manifest.key == key
      requires (scene.a.at == ReplayIntent(reference) && next == ReplayGrant(reference))
               || (scene.a.at == ConfirmingIntent(reference) && next == SpendingGrant(reference))
      modifies this`trace, this`scenes, this`scene, Stores()
      ensures Valid() && scenes[0] == old(scenes[0])
      ensures r == Yes ==> scene.a == old(scene).a.(at := next)
      ensures r == No ==> scene.a == old(scene).a.(at := Stuck(old(scene).a.at))
      ensures r == Threw ==> scene.a == old(scene).a.(at := scene.a.at) && scene.a.at.Thrown?
    {
      if outbox != null {
        r := ConfirmEntry(key, reference, next);
        return;
      }
      Interfere();
      ghost var x := Found();
      ConfirmStep(x, reference, next, Fine);
      Note(x.shared, Fine);
      r := Yes;
    }

    method ConfirmEntry(key: string, ghost reference: string, ghost next: Point) returns (r: Answer)
      requires Valid() && scene.a.job.Commit? && scene.a.job.manifest.key == key && outbox != null
      requires (scene.a.at == ReplayIntent(reference) && next == ReplayGrant(reference))
               || (scene.a.at == ConfirmingIntent(reference) && next == SpendingGrant(reference))
      modifies this`trace, this`scenes, this`scene, Stores()
      ensures Valid() && scenes[0] == old(scenes[0])
      ensures r == Yes ==> scene.a == old(scene).a.(at := next)
      ensures r == No ==> scene.a == old(scene).a.(at := Stuck(old(scene).a.at))
      ensures r == Threw ==> scene.a == old(scene).a.(at := scene.a.at) && scene.a.at.Thrown?
    {
      var raises: bool := *;
      if raises {
        ThrowOut();
        return Threw;
      }
      r := ConfirmEntryNow(key, reference, next);
    }

    method ConfirmEntryNow(key: string, ghost reference: string, ghost next: Point) returns (r: Answer)
      requires Valid() && scene.a.job.Commit? && scene.a.job.manifest.key == key && outbox != null
      requires (scene.a.at == ReplayIntent(reference) && next == ReplayGrant(reference))
               || (scene.a.at == ConfirmingIntent(reference) && next == SpendingGrant(reference))
      modifies this`trace, this`scenes, this`scene, Stores()
      ensures Valid() && scenes[0] == old(scenes[0])
      ensures r == Yes ==> scene.a == old(scene).a.(at := next)
      ensures r == No ==> scene.a == old(scene).a.(at := Stuck(old(scene).a.at))
      ensures r == Threw ==> scene.a == old(scene).a.(at := scene.a.at) && scene.a.at.Thrown?
    {
      Interfere();
      ghost var x := Found();
      var late: bool := *;
      ghost var fault := if late then Late else Fine;
      var ok := outbox.MarkConfirmed(key);
      ConfirmOutcome(x, reference, next, fault, ok);
      Note(x.shared, fault);
      r := if !ok then No else if late then Threw else Yes;
    }

    /** Spends the grant use and records the outcome of the key. */
    method FinalizeGrant(id: string, key: string, reference: string) returns (r: Answer)
      requires Valid() && scene.a.job.Commit? && scene.a.job.grant.id == id && scene.a.job.manifest.key == key
      requires scene.a.at == ReplayGrant(reference) || scene.a.at == SpendingGrant(reference)
      modifies this`trace, this`scenes, this`scene, Stores()
      ensures Valid() && scenes[0] == old(scenes[0])
      ensures r == Yes ==> scene.a == old(scene).a.(at := Moving(Settle, Read))
      ensures r == No ==> scene.a == old(scene).a.(at := Stuck(old(scene).a.at))
      ensures r == Threw ==> scene.a == old(scene).a.(at := scene.a.at) && scene.a.at.Thrown?
    {
      var raises: bool := *;
      if raises {
        ThrowOut();
        return Threw;
      }
      r := FinalizeGrantNow(id, key, reference);
    }

    method FinalizeGrantNow(id: string, key: string, reference: string) returns (r: Answer)
      requires Valid() && scene.a.job.Commit? && scene.a.job.grant.id == id && scene.a.job.manifest.key == key
      requires scene.a.at == ReplayGrant(reference) || scene.a.at == SpendingGrant(reference)
      modifies this`trace, this`scenes, this`scene, Stores()
      ensures Valid() && scenes[0] == old(scenes[0])
      ensures r == Yes ==> scene.a == old(scene).a.(at := Moving(Settle, Read))
      ensures r == No ==> scene.a == old(scene).a.(at := Stuck(old(scene).a.at))
      ensures r == Threw ==> scene.a == old(scene).a.(at := scene.a.at) && scene.a.at.Thrown?
    {
      Interfere();
      ghost var x := Found();
      var late: bool := *;
      ghost var fault := if late then Late else Fine;
      var ok := grants.Finalize(id, key, reference);
      UseOutcome(x, reference, fault, ok);
      Note(x.shared, fault);
      r := if !ok then No else if late then Threw else Yes;
    }

    method ValidatePreconditions(manifest: Manifest) returns (ok: bool)
      requires At(Validating) && scene.a.job.Commit? && scene.a.job.manifest == manifest
      modifies this`trace, this`scenes, this`scene, Stores()
      ensures Valid() && scenes[0] == old(scenes[0])
      ensures scene.a == old(scene).a.(at := if ok then Calling else FailingGrant(true))
    {
      Interfere();
      ghost var x := Found();
      var fault: Fault := *;
      ValidateStep(x, fault);
      var source, expected := manifest.payment.source, manifest.expectedBalance;
      var balance := if source in provider.balances then provider.balances[source] else 0;
      ok := fault.Fine? && balance == expected && manifest.payment.Total() <= expected;
      Note(x.shared, fault);
    }

    /** The adapter's commit: the one call that has the external effect. An adapter that raises, before
        or after the effect, leaves the outcome unknown. */
    method CallAdapter(manifest: Manifest) returns (reply: Pay.CommitReply)
      requires At(Calling) && scene.a.job.Commit? && scene.a.job.manifest == manifest
      modifies this`answered, this`trace, this`scenes, this`scene, Stores()
      ensures Valid() && scenes[0] == old(scenes[0])
      ensures scene.a == Called(old(scene).a, reply) && answered == Some(reply)
    {
      Interfere();
      ghost var x := Found();
      var fault: Fault := *;
      CallStep(x, fault);
      reply := Pay.Exception;
      if !fault.Raises? {
        var answer := provider.SubmitSteps(manifest.key, manifest.payment);
        reply := if fault.Fine? then Pay.CommitReplyOf(answer) else Pay.Exception;
      }
      Note(x.shared, fault);
      answered := Some(reply);
    }

    /** Abandons the intent. No is a refusal of the outbox, which raises before the lifecycle is moved. */
    method AbandonIntent(key: string) returns (r: Answer)
      requires At(FailingIntent) && scene.a.job.Commit? && scene.a.job.manifest.key == key
      modifies this`trace, this`scenes, this`scene, Stores()
      ensures Valid() && scenes[0] == old(scenes[0])
      ensures r == Yes ==> scene.a == old(scene).a.(at := Moving(Fail, Read))
      ensures r == No ==> scene.a == old(scene).a.(at := Done)
      ensures r == Threw ==> scene.a == old(scene).a.(at := scene.a.at) && scene.a.at.Thrown?
    {
      if outbox != null {
        r := AbandonEntry(key);
        return;
      }
      Interfere();
      ghost var x := Found();
      AbandonStep(x, Fine);
      Note(x.shared, Fine);
      r := Yes;
    }

    method AbandonEntry(key: string) returns (r: Answer)
      requires At(FailingIntent) && scene.a.job.Commit? && scene.a.job.manifest.key == key && outbox != null
      modifies this`trace, this`scenes, this`scene, Stores()
      ensures Valid() && scenes[0] == old(scenes[0])
      ensures r == Yes ==> scene.a == old(scene).a.(at := Moving(Fail, Read))
      ensures r == No ==> scene.a == old(scene).a.(at := Done)
      ensures r == Threw ==> scene.a == old(scene).a.(at := scene.a.at) && scene.a.at.Thrown?
    {
      var raises: bool := *;
      if raises {
        ThrowOut();
        return Threw;
      }
      r := AbandonEntryNow(key);
    }

    method AbandonEntryNow(key: string) returns (r: Answer)
      requires At(FailingIntent) && scene.a.job.Commit? && scene.a.job.manifest.key == key && outbox != null
      modifies this`trace, this`scenes, this`scene, Stores()
      ensures Valid() && scenes[0] == old(scenes[0])
      ensures r == Yes ==> scene.a == old(scene).a.(at := Moving(Fail, Read))
      ensures r == No ==> scene.a == old(scene).a.(at := Done)
      ensures r == Threw ==> scene.a == old(scene).a.(at := scene.a.at) && scene.a.at.Thrown?
    {
      Interfere();
      ghost var x := Found();
      var late: bool := *;
      ghost var fault := if late then Late else Fine;
      var ok := outbox.MarkAbandoned(key);
      AbandonOutcome(x, fault, ok);
      Note(x.shared, fault);
      r := if late then Threw else if ok then Yes else No;
    }

    method SpendBudget(charge: Option<(string, int)>, ghost reference: string) returns (r: Answer)
      requires At(SpendingBudget(reference)) && scene.a.job.Commit? && scene.a.charge == charge
      modifies this`trace, this`scenes, this`scene, Stores()
      ensures Valid() && scenes[0] == old(scenes[0])
      ensures r == Yes ==> scene.a == old(scene).a.(at := ConfirmingIntent(reference))
      ensures r == No ==> scene.a == old(scene).a.(at := Stuck(old(scene).a.at))
      ensures r == Threw ==> scene.a == old(scene).a.(at := scene.a.at) && scene.a.at.Thrown?
    {
      if charge.Some? {
        r := SpendCharge(charge.value.0, charge.value.1, reference);
        return;
      }
      Interfere();
      ghost var x := Found();
      SpendStep(x, reference, Fine);
      Note(x.shared, Fine);
      r := Yes;
    }

    method SpendCharge(id: string, amount: int, ghost reference: string) returns (r: Answer)
      requires At(SpendingBudget(reference)) && scene.a.job.Commit? && scene.a.charge == Some((id, amount))
      modifies this`trace, this`scenes, this`scene, Stores()
      ensures Valid() && scenes[0] == old(scenes[0])
      ensures r == Yes ==> scene.a == old(scene).a.(at := ConfirmingIntent(reference))
      ensures r == No ==> scene.a == old(scene).a.(at := Stuck(old(scene).a.at))
      ensures r == Threw ==> scene.a == old(scene).a.(at := scene.a.at) && scene.a.at.Thrown?
    {
      var raises: bool, late: bool := *, *;
      if raises {
        ThrowOut();
        r := Threw;
      } else if late {
        var ok := SpendChargeLate(id, amount, reference);
        r := if ok then Threw else No;
      } else {
        var ok := SpendChargeNow(id, amount, reference);
        r := if ok then Yes else No;
      }
    }

    method SpendChargeNow(id: string, amount: int, ghost reference: string) returns (ok: bool)
      requires At(SpendingBudget(reference)) && scene.a.job.Commit? && scene.a.charge == Some((id, amount))
      modifies this`trace, this`scenes, this`scene, Stores()
      ensures Valid() && scenes[0] == old(scenes[0])
      ensures scene.a == old(scene).a.(at := if ok then ConfirmingIntent(reference) else Stuck(old(scene).a.at))
    {
      Interfere();
      ghost var x := Found();
      var refused := ConsumeCharge(id, amount);
      SpendOutcome(x, reference, Fine, refused);
      Note(x.shared, Fine);
      ok := !refused;
    }

    /** The reservation is consumed, and the call raises all the same. */
    method SpendChargeLate(id: string, amount: int, ghost reference: string) returns (ok: bool)
      requires At(SpendingBudget(reference)) && scene.a.job.Commit? && scene.a.charge == Some((id, amount))
      modifies this`trace, this`scenes, this`scene, Stores()
      ensures Valid() && scenes[0] == old(scenes[0])
      ensures scene.a ==
                old(scene).a.(at := if ok then Thrown(ConfirmingIntent(reference)) else Stuck(old(scene).a.at))
    {
      Interfere();
      ghost var x := Found();
      var refused := ConsumeCharge(id, amount);
      SpendOutcome(x, reference, Late, refused);
      Note(x.shared, Late);
      ok := !refused;
    }

    /** The ledger's part of it. */
    method ConsumeCharge(id: string, amount: int) returns (refused: bool)
      requires ledger.Valid()
      modifies ledger
      ensures ledger.Valid()
      ensures refused <==> Budget.Commit(old(ledger.View()), id, amount).Err?
      ensures ledger.View() ==
                if refused then old(ledger.View()) else Budget.Commit(old(ledger.View()), id, amount).value
    {
      var error := ledger.Commit(id, amount);
      refused := error.Some?;
    }

    /** The call has left the engine: in order, thrown out, or by a store's error branch. */
    ghost predicate Left()
      reads this, Stores()
    {
      Valid() && (scene.a.at.Done? || scene.a.at.Thrown? || scene.a.at.Stuck?)
    }

    /** Nothing but its point, its charge and its COMMITTING write has changed. */
    ghost predicate SameVerdict(a: Attempt)
      reads this
    {
      scene.a == a.(at := scene.a.at, entered := scene.a.entered)
    }

    /** Gives both reservations back after a failure before the adapter was consulted. */
    method Undo(manifest: Manifest, grant: Grant, charge: Option<(string, int)>)
      requires At(UndoingGrant) && scene.a.job == Commit(manifest, grant) && scene.a.charge == charge
      modifies this`trace, this`scenes, this`scene, Stores()
      ensures Left() && scenes[0] == old(scenes[0]) && SameVerdict(old(scene).a)
    {
      var r := ReleaseGrant(grant.id);
      if r == Yes {
        r := ReleaseBudget(charge);
      }
    }

    /** Gives both reservations back after the effect failed, abandons the intent unless the outcome
        is unknown, and fails the lifecycle. */
    method FailEffect(manifest: Manifest, grant: Grant, charge: Option<(string, int)>, abandon: bool) returns (ok: bool)
      requires At(FailingGrant(abandon)) && scene.a.job == Commit(manifest, grant) && scene.a.charge == charge
      modifies this`records, this`trace, this`scenes, this`scene, Stores()
      ensures Left() && scenes[0] == old(scenes[0]) && SameVerdict(old(scene).a)
      ensures ok ==> scene.a.at.Done? && manifest.id in records && records[manifest.id] == State.Failed
    {
      ok := GiveBack(grant, charge, abandon);
      if ok {
        ok := FailLifecycle(manifest, abandon);
      }
    }

    method GiveBack(grant: Grant, charge: Option<(string, int)>, ghost abandon: bool) returns (ok: bool)
      requires At(FailingGrant(abandon)) && scene.a.job.Commit? && scene.a.job.grant == grant
      requires scene.a.charge == charge
      modifies this`trace, this`scenes, this`scene, Stores()
      ensures Valid() && scenes[0] == old(scenes[0])
      ensures ok ==> scene.a == old(scene).a.(at := if abandon then FailingIntent else Moving(Fail, Read))
      ensures !ok ==> scene.a == old(scene).a.(at := scene.a.at) && (scene.a.at.Thrown? || scene.a.at.Stuck?)
    {
      var r := ReleaseGrant(grant.id);
      ok := r == Yes;
      if ok {
        r := ReleaseBudget(charge);
        ok := r == Yes;
      }
    }

    method FailLifecycle(manifest: Manifest, abandon: bool) returns (ok: bool)
      requires At(if abandon then FailingIntent else Moving(Fail, Read))
      requires scene.a.job.Commit? && scene.a.job.manifest == manifest
      modifies this`records, this`trace, this`scenes, this`scene, Stores()
      ensures Left() && scenes[0] == old(scenes[0]) && SameVerdict(old(scene).a)
      ensures ok ==> scene.a.at.Done? && manifest.id in records && records[manifest.id] == State.Failed
    {
      if abandon {
        var r := AbandonIntent(manifest.key);
        if r != Yes {
          return false;
        }
      }
      var moved, _ := Transition(Fail, manifest.id, State.Failed);
      ok := moved.Allowed?;
    }

    /** Spends the grant use and moves the lifecycle to COMMITTED. */
    method SpendUse(manifest: Manifest, grant: Grant, reference: string) returns (ok: bool)
      requires Valid() && scene.a.job == Commit(manifest, grant)
      requires scene.a.at == ReplayGrant(reference) || scene.a.at == SpendingGrant(reference)
      modifies this`records, this`trace, this`scenes, this`scene, Stores()
      ensures Left() && scenes[0] == old(scenes[0]) && SameVerdict(old(scene).a)
      ensures ok ==> scene.a.at.Done? && manifest.id in records && records[manifest.id] == State.Committed
    {
      var r := FinalizeGrant(grant.id, manifest.key, reference);
      ok := r == Yes;
      if ok {
        var moved, _ := Transition(Settle, manifest.id, State.Committed);
        ok := moved.Allowed?;
      }
    }

    /** Confirms the intent, spends the grant use and moves the lifecycle to COMMITTED. */
    method ConfirmAndSpend(manifest: Manifest, grant: Grant, reference: string) returns (ok: bool)
      requires Valid() && scene.a.job == Commit(manifest, grant)
      requires scene.a.at == ReplayIntent(reference) || scene.a.at == ConfirmingIntent(reference)
      modifies this`records, this`trace, this`scenes, this`scene, Stores()
      ensures Left() && scenes[0] == old(scenes[0]) && SameVerdict(old(scene).a)
      ensures ok ==> scene.a.at.Done? && manifest.id in records && records[manifest.id] == State.Committed
    {
      ghost var next := if scene.a.at.ReplayIntent? then ReplayGrant(reference) else SpendingGrant(reference);
      var answer := ConfirmIntent(manifest.key, reference, next);
      ok := answer == Yes;
      if ok {
        ok := SpendUse(manifest, grant, reference);
      }
    }

    /** Answers from the idempotency ledger: no budget is consumed, the grant use is spent. */
    method ReplayOutcome(manifest: Manifest, grant: Grant, charge: Option<(string, int)>, outcome: string)
      returns (r: Verdict)
      requires At(ReplayBudget(outcome)) && scene.a.job == Commit(manifest, grant) && scene.a.charge == charge
      modifies this`records, this`trace, this`scenes, this`scene, Stores()
      ensures Left() && scenes[0] == old(scenes[0]) && SameVerdict(old(scene).a)
      ensures r == Raising || (r == Replayed(outcome) && scene.a.at.Done?)
      ensures r.Replayed? ==> manifest.id in records && records[manifest.id] == State.Committed
    {
      r := Raising;
      var answer := ReleaseBudget(charge);
      if answer == Yes {
        var ok := ConfirmAndSpend(manifest, grant, outcome);
        r := if ok then Replayed(outcome) else Raising;
      }
    }

    /** Settles the books after the adapter reported success. */
    method SettleBooks(manifest: Manifest, grant: Grant, charge: Option<(string, int)>, reference: string)
      returns (r: Verdict)
      requires At(SpendingBudget(reference)) && scene.a.job == Commit(manifest, grant) && scene.a.charge == charge
      modifies this`records, this`trace, this`scenes, this`scene, Stores()
      ensures Left() && scenes[0] == old(scenes[0]) && SameVerdict(old(scene).a)
      ensures r == Raising || (r == Verdict.Committed(reference) && scene.a.at.Done?)
      ensures r.Committed? ==> manifest.id in records && records[manifest.id] == State.Committed
    {
      r := Raising;
      var answer := SpendBudget(charge, reference);
      if answer == Yes {
        var ok := ConfirmAndSpend(manifest, grant, reference);
        r := if ok then Verdict.Committed(reference) else Raising;
      }
    }

    /** What the caller is told is what happened. */
    ghost predicate Agrees(r: Verdict, id: string)
      reads this
    {
      Truthful(r, scene.a, answered, if id in records then Some(records[id]) else None)
    }

    /** The part of commit after the intent is recorded. */
    method Execute(manifest: Manifest, grant: Grant, charge: Option<(string, int)>) returns (r: Verdict)
      requires At(Consulting) && scene.a.job == Commit(manifest, grant) && scene.a.charge == charge
      requires !scene.a.succeeded && !scene.a.replayed && answered == None
      modifies this`answered, this`records, this`trace, this`scenes, this`scene, Stores()
      ensures Left() && scenes[0] == old(scenes[0]) && Agrees(r, manifest.id)
    {
      var answer, outcome := Consult(manifest.key);
      if answer == Threw {
        return Raising;
      }
      if answer == Yes {
        r := ReplayOutcome(manifest, grant, charge, outcome);
      } else {
        r := ValidateAndCall(manifest, grant, charge);
      }
    }

    /** The part of commit for a key without an outcome. */
    method ValidateAndCall(manifest: Manifest, grant: Grant, charge: Option<(string, int)>) returns (r: Verdict)
      requires At(Validating) && scene.a.job == Commit(manifest, grant) && scene.a.charge == charge
      requires !scene.a.succeeded && !scene.a.replayed && answered == None
      modifies this`answered, this`records, this`trace, this`scenes, this`scene, Stores()
      ensures Left() && scenes[0] == old(scenes[0]) && Agrees(r, manifest.id)
    {
      var satisfied := ValidatePreconditions(manifest);
      if !satisfied {
        r := FailUnasked(manifest, grant, charge);
        return;
      }
      r := CallAndSettle(manifest, grant, charge);
    }

    /** A denial before the adapter is asked. */
    method FailUnasked(manifest: Manifest, grant: Grant, charge: Option<(string, int)>) returns (r: Verdict)
      requires At(FailingGrant(true)) && scene.a.job == Commit(manifest, grant) && scene.a.charge == charge
      requires !scene.a.succeeded && !scene.a.replayed && answered == None
      modifies this`records, this`trace, this`scenes, this`scene, Stores()
      ensures Left() && scenes[0] == old(scenes[0]) && Agrees(r, manifest.id)
    {
      var _ := FailEffect(manifest, grant, charge, true);
      r := Denied;
    }

    /** The effect, and what follows from the adapter's answer. */
    method CallAndSettle(manifest: Manifest, grant: Grant, charge: Option<(string, int)>) returns (r: Verdict)
      requires At(Calling) && scene.a.job == Commit(manifest, grant) && scene.a.charge == charge
      requires !scene.a.succeeded && !scene.a.replayed && answered == None
      modifies this`answered, this`records, this`trace, this`scenes, this`scene, Stores()
      ensures Left() && scenes[0] == old(scenes[0]) && Agrees(r, manifest.id)
    {
      var reply := CallAdapter(manifest);
      match reply
      case Exception => r := FailCall(manifest, grant, charge, false);
      case Failure => r := FailCall(manifest, grant, charge, true);
      case Success(reference) => r := SettleCall(manifest, grant, charge, reference);
    }

    /** What follows a success. */
    method SettleCall(manifest: Manifest, grant: Grant, charge: Option<(string, int)>, reference: string)
      returns (r: Verdict)
      requires At(SpendingBudget(OutcomeRef(reference))) && scene.a.job == Commit(manifest, grant)
      requires scene.a.charge == charge && scene.a.succeeded && !scene.a.replayed
      requires answered == Some(Pay.Success(reference))
      modifies this`records, this`trace, this`scenes, this`scene, Stores()
      ensures Left() && scenes[0] == old(scenes[0]) && Agrees(r, manifest.id)
    {
      r := SettleBooks(manifest, grant, charge, OutcomeRef(reference));
    }

    /** What follows an answer that is no success: a failure is returned, an exception raised again. */
    method FailCall(manifest: Manifest, grant: Grant, charge: Option<(string, int)>, abandon: bool) returns (r: Verdict)
      requires At(FailingGrant(abandon)) && scene.a.job == Commit(manifest, grant) && scene.a.charge == charge
      requires !scene.a.succeeded && !scene.a.replayed
      requires answered == Some(if abandon then Pay.Failure else Pay.Exception)
      modifies this`records, this`trace, this`scenes, this`scene, Stores()
      ensures Left() && scenes[0] == old(scenes[0]) && Agrees(r, manifest.id)
    {
      var ok := FailEffect(manifest, grant, charge, abandon);
      r := if !abandon then Denied else if ok then Refused else Raising;
    }

    /** The whole call takes the steps of a commit attempt of the protocol machine, from the stores
        it finds at each step, until the attempt has left the engine; and what it tells its caller is
        what happened. When it tells of a success or a replay, it has itself moved the stored row of the
        manifest from COMMITTING to COMMITTED. */
    method CommitEffect(manifest: Manifest, grant: Grant) returns (r: Verdict)
      requires ledger.Valid()
      modifies this, Stores()
      ensures Left() && Agrees(r, manifest.id) && Passed(scenes, trace)
      ensures scenes[0] == Scene(old(View()), old(records), Launch(number, Commit(manifest, grant)))
      ensures r.Committed? || r.Replayed? ==> StoredByCall(scenes, trace, manifest.id, Committing, State.Committed)
    {
      Begin(Commit(manifest, grant));
      r := CheckAndReserve(manifest, grant);
      if r.Committed? || r.Replayed? {
        RememberedIsStored(scenes, trace, number, manifest, grant);
      }
    }

    method CheckAndReserve(manifest: Manifest, grant: Grant) returns (r: Verdict)
      requires At(Checking) && scene.a.job == Commit(manifest, grant) && scene.a.charge == None
      requires !scene.a.succeeded && !scene.a.replayed && answered == None
      modifies this`answered, this`records, this`trace, this`scenes, this`scene, Stores()
      ensures Left() && scenes[0] == old(scenes[0]) && Agrees(r, manifest.id)
    {
      var ok := Admit(manifest, grant);
      if !ok {
        return Denied;
      }
      var answer, charge := ReserveBudget(manifest, grant);
      if answer != Yes {
        return if answer == No then Denied else Raising;
      }
      answer := ReserveGrant(manifest, grant);
      if answer == Threw {
        return Raising;
      }
      if answer == No {
        var _ := ReleaseBudget(charge);
        return Denied;
      }
      r := EnterAndExecute(manifest, grant, charge);
    }

    /** The part of commit after the reservations. */
    method EnterAndExecute(manifest: Manifest, grant: Grant, charge: Option<(string, int)>) returns (r: Verdict)
      requires At(Moving(Enter, Read)) && scene.a.job == Commit(manifest, grant) && scene.a.charge == charge
      requires !scene.a.succeeded && !scene.a.replayed && answered == None
      modifies this`answered, this`records, this`trace, this`scenes, this`scene, Stores()
      ensures Left() && scenes[0] == old(scenes[0]) && Agrees(r, manifest.id)
    {
      var moved, _ := Transition(Enter, manifest.id, Committing);
      if !moved.Allowed? {
        r := Withdraw(manifest, grant, charge);
        return;
      }
      r := IntendAndExecute(manifest, grant, charge);
    }

    /** A denial after the reservations. */
    method Withdraw(manifest: Manifest, grant: Grant, charge: Option<(string, int)>) returns (r: Verdict)
      requires At(UndoingGrant) && scene.a.job == Commit(manifest, grant) && scene.a.charge == charge
      requires !scene.a.succeeded && !scene.a.replayed && answered == None
      modifies this`trace, this`scenes, this`scene, Stores()
      ensures Left() && scenes[0] == old(scenes[0]) && Agrees(r, manifest.id)
    {
      Undo(manifest, grant, charge);
      r := Denied;
    }

    /** The part of commit after its manifest has entered COMMITTING. */
    method IntendAndExecute(manifest: Manifest, grant: Grant, charge: Option<(string, int)>) returns (r: Verdict)
      requires At(RecordingIntent) && scene.a.job == Commit(manifest, grant) && scene.a.charge == charge
      requires !scene.a.succeeded && !scene.a.replayed && answered == None
      modifies this`answered, this`records, this`trace, this`scenes, this`scene, Stores()
      ensures Left() && scenes[0] == old(scenes[0]) && Agrees(r, manifest.id)
    {
      var ok := RecordIntent(manifest, grant);
      if !ok {
        r := Withdraw(manifest, grant, charge);
        return;
      }
      r := Execute(manifest, grant, charge);
    }

    // ---------- recovery of an ambiguous outcome ----------

    method Probe(manifest: Manifest) returns (evidence: bool)
      requires At(Probing) && scene.a.job == Recover(manifest)
      modifies this`probed, this`trace, this`scenes, this`scene, Stores()
      ensures Valid() && scenes[0] == old(scenes[0])
      ensures scene.a == old(scene).a.(at := if evidence then Backfilling else Done)
      ensures evidence <==> probed.Some? && RecoveryEndings.PaymentFound(probed.value.provider, manifest)
    {
      Interfere();
      ghost var x := Found();
      var fault: Fault := *;
      ProbeStep(x, fault);
      var key, pay := manifest.key, manifest.payment;
      evidence := fault.Fine? && key in provider.payments && provider.payments[key].settled
        && provider.payments[key].amount == pay.amount && provider.payments[key].beneficiary == pay.beneficiary;
      Note(x.shared, fault);
      probed := if fault.Fine? then Some(x.shared) else None;
    }

    method RecordOutcome(key: string) returns (ok: bool)
      requires At(Backfilling) && scene.a.job.Recover? && scene.a.job.manifest.key == key
      modifies this`trace, this`scenes, this`scene, Stores()
      ensures Valid() && scenes[0] == old(scenes[0])
      ensures scene.a == old(scene).a.(at := if ok then Peeking else Done)
      ensures ok ==> key in grants.outcomes
    {
      Interfere();
      ghost var x := Found();
      var fault: Fault := *;
      BackfillStep(x, fault);
      if !fault.Raises? {
        grants.RecordIdempotentOutcome(key, "settled:" + key);
      }
      Note(x.shared, fault);
      ok := fault.Fine?;
    }

    /** Whether the intent is pending; Threw ends the recovery. */
    method IntentPending(key: string) returns (r: Answer)
      requires At(Peeking) && scene.a.job.Recover? && scene.a.job.manifest.key == key
      modifies this`trace, this`scenes, this`scene, Stores()
      ensures Valid() && scenes[0] == old(scenes[0])
      ensures scene.a == old(scene).a.(at := if r == Yes then Confirming else if r == No then Deciding else Done)
      ensures r == Yes ==> outbox != null
    {
      Interfere();
      ghost var x := Found();
      var fault: Fault := *;
      PeekStep(x, fault);
      var pending := outbox != null && key in outbox.entries && outbox.entries[key].status == Outbox.Pending;
      Note(x.shared, fault);
      r := if !fault.Fine? then Threw else if pending then Yes else No;
    }

    method ReconfirmIntent(key: string) returns (ok: bool)
      requires At(Confirming) && scene.a.job.Recover? && scene.a.job.manifest.key == key && outbox != null
      modifies this`trace, this`scenes, this`scene, Stores()
      ensures Valid() && scenes[0] == old(scenes[0])
      ensures scene.a == old(scene).a.(at := if ok then Deciding else Done)
    {
      Interfere();
      ghost var x := Found();
      var fault: Fault := *;
      ReconfirmStep(x, fault);
      ok := false;
      if !fault.Raises? {
        ok := outbox.MarkConfirmed(key);
      }
      Note(x.shared, fault);
      ok := ok && fault.Fine?;
    }

    method ReadForRecovery(id: string) returns (reconcile: bool)
      requires At(Deciding) && scene.a.job.Recover? && scene.a.job.manifest.id == id
      modifies this`records, this`trace, this`scenes, this`scene, Stores()
      ensures Valid() && scenes[0] == old(scenes[0])
      ensures scene.a == old(scene).a.(at := if reconcile then Moving(Reconcile, Read) else Done)
    {
      Interfere();
      ghost var x := Found();
      var fault: Fault := *;
      DecideStep(x, fault);
      reconcile := false;
      if !fault.Raises? {
        var state := GetRecord(id);
        reconcile := fault.Fine? && Legal(state, RecoveredCommitted);
      }
      Note(x.shared, fault);
    }

    /** Never performs the effect: it looks for evidence of it and, on evidence, records the outcome so
        that later commits replay it, and reconciles outbox and lifecycle. It tells of evidence exactly
        when its probe came back and found the payment of this manifest settled. */
    method RecoverAmbiguousCommit(manifest: Manifest) returns (evidence: bool)
      requires ledger.Valid()
      modifies this, Stores()
      ensures Left() && scene.a.at.Done? && Passed(scenes, trace)
      ensures evidence <==> probed.Some? && RecoveryEndings.PaymentFound(probed.value.provider, manifest)
      ensures scenes[0] == Scene(old(View()), old(records), Launch(number, Recover(manifest)))
    {
      Begin(Recover(manifest));
      evidence := Probe(manifest);
      if evidence {
        var ok := RecordOutcome(manifest.key);
        if ok {
          ReconcileStores(manifest);
        }
      }
    }

    method ReconcileStores(manifest: Manifest)
      requires At(Peeking) && scene.a.job == Recover(manifest)
      modifies this`records, this`trace, this`scenes, this`scene, Stores()
      ensures Valid() && scenes[0] == old(scenes[0])
      ensures scene.a.at.Done?
    {
      var pending := IntentPending(manifest.key);
      if pending == Threw {
        return;
      }
      if pending == Yes {
        var ok := ReconfirmIntent(manifest.key);
        if !ok {
          return;
        }
      }
      ReconcileLifecycle(manifest);
    }

    method ReconcileLifecycle(manifest: Manifest)
      requires At(Deciding) && scene.a.job == Recover(manifest)
      modifies this`records, this`trace, this`scenes, this`scene, Stores()
      ensures Valid() && scenes[0] == old(scenes[0])
      ensures scene.a.at.Done?
    {
      var reconcile := ReadForRecovery(manifest.id);
      if reconcile {
        var _, _ := Transition(Reconcile, manifest.id, RecoveredCommitted);
      }
    }

    /** The transition of any other engine operation, as a call of its own. */
    method Transit(id: string, target: State) returns (r: Moved, from: State)
      requires ledger.Valid()
      modifies this, Stores()
      ensures Left() && scene.a.at.Done? && Passed(scenes, trace)
      ensures scenes[0] == Scene(old(View()), old(records), Launch(number, Job.Transit(id, target)))
      ensures MemoryAfter(r, id, from, target, old(records), records)
    {
      Begin(Job.Transit(id, target));
      r, from := Transition(Plain, id, target);
    }
  }
}
