/** When a commit for a key with a recorded outcome is answered from the idempotency ledger: the exact
    condition, in terms a caller can look up before the call. */
module CommitReplay {
  import opened Wrappers
  import opened Faults
  import opened Lifecycle
  import opened CommitProtocol
  import opened CommitInvariants
  import opened CommitRuns
  import opened CommitTheorems
  import opened CommitOutbox
  import opened EngineSteps
  import Budget
  import GrantStore
  import Outbox

  // ---------- a call on its own ----------

  /** Scene k + 1 is one step without a fault from scene k. */
  predicate IsStep(path: seq<Scene>, k: nat)
    requires k + 1 < |path|
  {
    path[k + 1] == Step(path[k], Fine)
  }

  /** The scenes of a call without faults and without interference. */
  ghost predicate Quiet(path: seq<Scene>) {
    path != [] && forall k {:trigger IsStep(path, k)} :: 0 <= k < |path| - 1 ==> IsStep(path, k)
  }

  /** n such steps lead from one scene to another. */
  ghost predicate Leads(x: Scene, y: Scene, n: nat) {
    exists path :: Quiet(path) && |path| == n + 1 && path[0] == x && path[n] == y
  }

  lemma LeadsNowhere(x: Scene)
    ensures Leads(x, x, 0)
  {
    assert Quiet([x]);
  }

  lemma LeadsOne(x: Scene, y: Scene)
    requires y == Step(x, Fine)
    ensures Leads(x, y, 1)
  {
    var path := [x, y];
    assert IsStep(path, 0);
    assert Quiet(path);
  }

  lemma StepCopied(p: seq<Scene>, k: nat, q: seq<Scene>, j: nat)
    requires k + 1 < |p| && j + 1 < |q| && p[k] == q[j] && p[k + 1] == q[j + 1] && IsStep(p, k)
    ensures IsStep(q, j)
  {
  }

  lemma LeadsOn(x: Scene, y: Scene, z: Scene, n: nat, k: nat)
    requires Leads(x, y, n) && Leads(y, z, k)
    ensures Leads(x, z, n + k)
  {
    var p :| Quiet(p) && |p| == n + 1 && p[0] == x && p[n] == y;
    var q :| Quiet(q) && |q| == k + 1 && q[0] == y && q[k] == z;
    var r := p + q[1..];
    forall j | 0 <= j < |r| - 1
      ensures IsStep(r, j)
    {
      if j < n {
        StepCopied(p, j, r, j);
      } else {
        StepCopied(q, j - n, r, j);
      }
    }
    assert Quiet(r);
  }

  lemma PathUnique(p: seq<Scene>, q: seq<Scene>, k: nat)
    requires Quiet(p) && Quiet(q) && p[0] == q[0] && k < |p| && k < |q|
    ensures p[k] == q[k]
    decreases k
  {
    if k > 0 {
      PathUnique(p, q, k - 1);
      assert IsStep(p, k - 1) && IsStep(q, k - 1);
    }
  }

  /** What a call has been told stays told. */
  lemma {:induction false} ToldAlong(path: seq<Scene>, n: nat, k: nat)
    requires Quiet(path) && n <= k < |path|
    ensures (path[n].a.replayed ==> path[k].a.replayed) && (path[n].a.succeeded ==> path[k].a.succeeded)
    decreases k
  {
    if n < k {
      ToldAlong(path, n, k - 1);
      assert IsStep(path, k - 1);
    }
  }

  /** n undisturbed steps of attempt i. */
  function Steps(i: nat, n: nat): seq<Action> {
    seq(n, _ => Advance(i, Fine))
  }

  /** The scenes of a call are those of the run in which only that call takes steps. */
  lemma {:induction false} PathIsRun(w: World, i: nat, path: seq<Scene>, n: nat)
    requires i < |w.attempts| && Quiet(path) && path[0] == SceneOf(w, i) && n < |path|
    ensures var v := RunFrom(w, Steps(i, n));
            i < |v.attempts| && v.attempts[i].engine == w.attempts[i].engine && SceneOf(v, i) == path[n]
            && (n > 0 ==> v == World(path[n].shared, w.memories[w.attempts[i].engine := path[n].records],
                                     w.attempts[i := path[n].a]))
    decreases n
  {
    if n > 0 {
      assert Steps(i, n)[..n - 1] == Steps(i, n - 1);
      PathIsRun(w, i, path, n - 1);
      assert IsStep(path, n - 1);
      OneMore(w, RunFrom(w, Steps(i, n - 1)), i, path[n - 1], path[n], n == 1);
    }
  }

  lemma OneMore(w: World, u: World, i: nat, x: Scene, y: Scene, first: bool)
    requires i < |w.attempts| && i < |u.attempts| && u.attempts[i].engine == w.attempts[i].engine
    requires SceneOf(u, i) == x && y == Step(x, Fine)
    requires if first then u == w
             else u == World(x.shared, w.memories[w.attempts[i].engine := x.records], w.attempts[i := x.a])
    ensures Perform(u, Advance(i, Fine)) == World(y.shared, w.memories[w.attempts[i].engine := y.records],
                                                  w.attempts[i := y.a])
    ensures y.a.engine == w.attempts[i].engine
  {
    assert w.attempts[i := x.a][i := y.a] == w.attempts[i := y.a];
    assert w.memories[w.attempts[i].engine := x.records][w.attempts[i].engine := y.records] ==
      w.memories[w.attempts[i].engine := y.records];
  }

  // ---------- a transition on its own ----------

  /** Memory and store agree on a state from which the target can be reached. */
  predicate Movable(x: Scene, id: string, target: State) {
    Legal(Known(x, id), target) && Stored(x.shared.lifecycle, id) == Known(x, id)
  }

  /** The scene after an undisturbed transition. */
  function Moved(x: Scene, goal: Goal): Scene {
    var id, target := ManifestId(x.a.job), Target(x.a.job, goal);
    Scene(StoreState(x.shared, id, target), x.records[id := target], Entering(x.a, goal).(at := Returned(goal)))
  }

  lemma TransitionSolo(x: Scene, goal: Goal)
    requires x.a.at == Moving(goal, Read) && Movable(x, ManifestId(x.a.job), Target(x.a.job, goal))
    ensures Leads(x, Moved(x, goal), 4)
  {
    var id, target := ManifestId(x.a.job), Target(x.a.job, goal);
    var from := Known(x, id);
    var y1 := Goes(x, Moving(goal, Look(from))).(records := x.records[id := target]);
    var absent := id !in x.shared.lifecycle;
    var y2 := Goes(y1, Moving(goal, if absent then CasAbsent(from) else CasFrom(from)));
    var y3 := Writing(y2, goal, from, Fine);
    ReadStep(x, goal, Fine);
    LeadsOne(x, y1);
    LookStep(y1, goal, from, Fine);
    LeadsOne(y1, y2);
    WriteLeads(y2, goal, from, absent);
    AuditStep(y3, goal, Fine);
    LeadsOne(y3, Moved(x, goal));
    LeadsOn(x, y1, y2, 1, 1);
    LeadsOn(x, y2, y3, 2, 1);
    LeadsOn(x, y3, Moved(x, goal), 3, 1);
  }

  lemma WriteLeads(y: Scene, goal: Goal, from: State, absent: bool)
    requires y.a.at == Moving(goal, if absent then CasAbsent(from) else CasFrom(from))
    requires absent <==> ManifestId(y.a.job) !in y.shared.lifecycle
    requires Stored(y.shared.lifecycle, ManifestId(y.a.job)) == from
    ensures Leads(y, Writing(y, goal, from, Fine), 1)
  {
    if absent {
      InsertStep(y, goal, from, Fine);
    } else {
      ReplaceStep(y, goal, from, Fine);
    }
    LeadsOne(y, Writing(y, goal, from, Fine));
  }

  lemma TransitionSoloFails(x: Scene, goal: Goal) returns (y: Scene, n: nat)
    requires x.a.at == Moving(goal, Read) && !Movable(x, ManifestId(x.a.job), Target(x.a.job, goal))
    ensures Leads(x, y, n) && y.a == x.a.(at := Raised(goal)) && y.shared == x.shared
  {
    var id, target := ManifestId(x.a.job), Target(x.a.job, goal);
    var from := Known(x, id);
    ReadStep(x, goal, Fine);
    if !Legal(from, target) {
      y, n := Goes(x, Raised(goal)).(records := x.records[id := from]), 1;
      LeadsOne(x, y);
    } else {
      var y1 := Goes(x, Moving(goal, Look(from))).(records := x.records[id := target]);
      LeadsOne(x, y1);
      y := LostRace(y1, goal, from);
      n := 3;
      LeadsOn(x, y1, y, 1, 2);
    }
  }

  lemma LostRace(x: Scene, goal: Goal, from: State) returns (y: Scene)
    requires x.a.at == Moving(goal, Look(from)) && Stored(x.shared.lifecycle, ManifestId(x.a.job)) != from
    ensures Leads(x, y, 2) && y.a == x.a.(at := Raised(goal)) && y.shared == x.shared
  {
    var y1 := Goes(x, Moving(goal, CasFrom(from)));
    LookStep(x, goal, from, Fine);
    LeadsOne(x, y1);
    y := Goes(y1, Raised(goal)).(records := y1.records[ManifestId(x.a.job) := from]);
    ReplaceStep(y1, goal, from, Fine);
    LeadsOne(y1, y);
    LeadsOn(x, y1, y, 1, 1);
  }

  // ---------- a commit on its own ----------

  predicate BudgetAvailable(s: Shared, m: Manifest, g: Grant) {
    g.budgetId.None? || BudgetDemand(s.ledger, g.budgetId.value, m).Ok?
  }

  predicate GrantAvailable(s: Shared, g: Grant) {
    GrantStore.Reserve(s.grants, g.id, g.maxUses).1
  }

  /** The outbox takes the intent of this call: there is no outbox, the key is new to it, or the same
      intent is still pending. */
  predicate IntentAccepted(s: Shared, m: Manifest, g: Grant) {
    s.outbox.None? || Outbox.RecordPending(s.outbox.value, m.key, g.id, m).Some?
  }

  predicate Launched(x: Scene) {
    x.a.job.Commit? && x.a == Launch(x.a.engine, x.a.job)
  }

  /** The call has been denied and is on its way out. */
  predicate GivingUp(a: Attempt) {
    a.job.Commit? && !a.replayed && !a.succeeded
    && (a.at.Done? || a.at.RefusedGrant? || a.at.UndoingGrant? || a.at.UndoingBudget? || a.at.Stuck?)
  }

  lemma GivingUpStays(x: Scene)
    requires GivingUp(x.a)
    ensures GivingUp(Step(x, Fine).a)
  {
  }

  lemma {:induction false} GivenUpForGood(path: seq<Scene>, n: nat, k: nat)
    requires Quiet(path) && n <= k < |path| && GivingUp(path[n].a)
    ensures GivingUp(path[k].a)
    decreases k
  {
    if n < k {
      GivenUpForGood(path, n, k - 1);
      assert IsStep(path, k - 1);
      GivingUpStays(path[k - 1]);
    }
  }

  /** A call that is giving up after n steps is replayed, or successful, after no number of steps. */
  lemma NeverServed(x: Scene, y: Scene, n: nat, z: Scene, k: nat)
    requires Leads(x, y, n) && GivingUp(y.a) && Leads(x, z, k)
    ensures !z.a.replayed && !z.a.succeeded
  {
    var p :| Quiet(p) && |p| == n + 1 && p[0] == x && p[n] == y;
    var q :| Quiet(q) && |q| == k + 1 && q[0] == x && q[k] == z;
    if n <= k {
      PathUnique(p, q, n);
      GivenUpForGood(q, n, k);
    } else {
      PathUnique(p, q, k);
      ToldAlong(p, k, n);
    }
  }

  ghost predicate EverReplayed(x: Scene) {
    exists y: Scene, n: nat :: Leads(x, y, n) && y.a.replayed
  }

  ghost predicate EverSuccessful(x: Scene) {
    exists y: Scene, n: nat :: Leads(x, y, n) && y.a.succeeded
  }

  /** The call is neither carried out nor replayed. */
  ghost predicate NotServed(x: Scene) {
    !EverReplayed(x) && !EverSuccessful(x)
  }

  lemma GivingUpIsFinal(x: Scene, y: Scene, n: nat)
    requires Leads(x, y, n) && GivingUp(y.a)
    ensures NotServed(x)
  {
    forall z, k | Leads(x, z, k)
      ensures !z.a.replayed && !z.a.succeeded
    {
      NeverServed(x, y, n, z, k);
    }
  }

  /** The checks and the two reservations can be passed. */
  predicate Reservable(x: Scene)
    requires x.a.job.Commit?
  {
    var m, g := x.a.job.manifest, x.a.job.grant;
    Admitted(x.shared, m, g) && BudgetAvailable(x.shared, m, g) && GrantAvailable(x.shared, g)
  }

  /** The scene after the checks and the two reservations. */
  function Reserving(x: Scene): Scene
    requires x.a.job.Commit? && Reservable(x)
  {
    var m, g := x.a.job.manifest, x.a.job.grant;
    var grants := GrantStore.Reserve(x.shared.grants, g.id, g.maxUses).0;
    if g.budgetId.None? then Goes(x, Moving(Enter, Read)).(shared := x.shared.(grants := grants))
    else
      var amount := BudgetDemand(x.shared.ledger, g.budgetId.value, m).value;
      Scene(x.shared.(grants := grants, ledger := Budget.Reserve(x.shared.ledger, g.budgetId.value, amount).value.0),
            x.records, x.a.(at := Moving(Enter, Read), charge := Some((g.budgetId.value, amount))))
  }

  lemma CheckSolo(x: Scene)
    requires Launched(x)
    ensures Admitted(x.shared, x.a.job.manifest, x.a.job.grant) ==> Leads(x, Goes(x, ReservingBudget), 1)
    ensures !Admitted(x.shared, x.a.job.manifest, x.a.job.grant) ==> NotServed(x)
  {
    CheckStep(x, Fine);
    if Admitted(x.shared, x.a.job.manifest, x.a.job.grant) {
      LeadsOne(x, Goes(x, ReservingBudget));
    } else {
      LeadsOne(x, Goes(x, Done));
      GivingUpIsFinal(x, Goes(x, Done), 1);
    }
  }

  lemma BudgetSolo(x: Scene) returns (y: Scene)
    requires x.a.at == ReservingBudget && x.a.job.Commit? && !x.a.replayed && !x.a.succeeded
    ensures Leads(x, y, 1) && y == Step(x, Fine)
    ensures !BudgetAvailable(x.shared, x.a.job.manifest, x.a.job.grant) ==> GivingUp(y.a)
    ensures BudgetAvailable(x.shared, x.a.job.manifest, x.a.job.grant) ==>
              && y.a.at == ReservingGrant && y.a == x.a.(at := ReservingGrant, charge := y.a.charge)
              && y == Scene(x.shared.(ledger := y.shared.ledger), x.records, y.a)
              && (x.a.job.grant.budgetId.None? ==> y == Goes(x, ReservingGrant))
              && (x.a.job.grant.budgetId.Some? ==>
                    var id := x.a.job.grant.budgetId.value;
                    var amount := BudgetDemand(x.shared.ledger, id, x.a.job.manifest).value;
                    y.a.charge == Some((id, amount))
                    && y.shared.ledger == Budget.Reserve(x.shared.ledger, id, amount).value.0)
  {
    y := Step(x, Fine);
    ReserveBudgetStep(x, Fine);
    LeadsOne(x, y);
  }

  lemma GrantSolo(x: Scene) returns (y: Scene)
    requires x.a.at == ReservingGrant && x.a.job.Commit? && !x.a.replayed && !x.a.succeeded
    ensures Leads(x, y, 1)
    ensures !GrantAvailable(x.shared, x.a.job.grant) ==> GivingUp(y.a)
    ensures GrantAvailable(x.shared, x.a.job.grant) ==>
              y == Goes(x, Moving(Enter, Read)).(
                shared := x.shared.(
                  grants := GrantStore.Reserve(x.shared.grants, x.a.job.grant.id, x.a.job.grant.maxUses).0))
  {
    y := Step(x, Fine);
    ReserveGrantStep(x, Fine);
    LeadsOne(x, y);
  }

  lemma ReserveSolo(x: Scene)
    requires Launched(x)
    ensures Reservable(x) ==> Leads(x, Reserving(x), 3)
    ensures !Reservable(x) ==> NotServed(x)
  {
    var m, g := x.a.job.manifest, x.a.job.grant;
    CheckSolo(x);
    if Admitted(x.shared, m, g) {
      var y1 := Goes(x, ReservingBudget);
      var y2 := BudgetSolo(y1);
      LeadsOn(x, y1, y2, 1, 1);
      if !BudgetAvailable(x.shared, m, g) {
        GivingUpIsFinal(x, y2, 2);
      } else {
        GrantDecides(x, y2);
      }
    }
  }

  lemma GrantDecides(x: Scene, y: Scene)
    requires Launched(x) && Leads(x, y, 2)
    requires y.a.at == ReservingGrant && y.a == x.a.(at := ReservingGrant, charge := y.a.charge)
    requires y.shared == x.shared.(ledger := y.shared.ledger)
    ensures !GrantAvailable(x.shared, x.a.job.grant) ==> NotServed(x)
    ensures GrantAvailable(x.shared, x.a.job.grant) ==>
              Leads(x, Goes(y, Moving(Enter, Read)).(
                         shared := y.shared.(
                           grants := GrantStore.Reserve(x.shared.grants, x.a.job.grant.id, x.a.job.grant.maxUses).0)),
                    3)
  {
    var z := GrantSolo(y);
    LeadsOn(x, y, z, 2, 1);
    if !GrantAvailable(x.shared, x.a.job.grant) {
      GivingUpIsFinal(x, z, 3);
    }
  }

  /** What a caller can look up before the call. */
  predicate PassesOutbox(x: Scene)
    requires x.a.job.Commit?
  {
    && Reservable(x) && Movable(x, x.a.job.manifest.id, Committing)
    && IntentAccepted(x.shared, x.a.job.manifest, x.a.job.grant)
  }

  /** The scene in which the call has moved its manifest to COMMITTING and stands at the outbox. */
  function AtOutbox(x: Scene): Scene
    requires x.a.job.Commit? && Reservable(x)
  {
    Moved(Reserving(x), Enter)
  }

  lemma EnterSolo(x: Scene)
    requires Launched(x) && Reservable(x)
    ensures Movable(x, x.a.job.manifest.id, Committing) ==> Leads(x, AtOutbox(x), 7)
    ensures !Movable(x, x.a.job.manifest.id, Committing) ==> NotServed(x)
  {
    ReserveSolo(x);
    var y := Reserving(x);
    if Movable(x, x.a.job.manifest.id, Committing) {
      TransitionSolo(y, Enter);
      LeadsOn(x, y, AtOutbox(x), 3, 4);
    } else {
      var z, n := TransitionSoloFails(y, Enter);
      LeadsOn(x, y, z, 3, n);
      GivingUpIsFinal(x, z, 3 + n);
    }
  }

  lemma OutboxSolo(x: Scene) returns (y: Scene)
    requires x.a.at == RecordingIntent && x.a.job.Commit? && !x.a.replayed && !x.a.succeeded
             && x.a.job.manifest.key in x.shared.grants.outcomes
    ensures IntentAccepted(x.shared, x.a.job.manifest, x.a.job.grant) ==> Leads(x, y, 2) && y.a.replayed
    ensures !IntentAccepted(x.shared, x.a.job.manifest, x.a.job.grant) ==> Leads(x, y, 1) && GivingUp(y.a)
  {
    y := Step(x, Fine);
    IntendStep(x, Fine);
    LeadsOne(x, y);
    if IntentAccepted(x.shared, x.a.job.manifest, x.a.job.grant) {
      var z := ConsultSolo(y);
      LeadsOn(x, y, z, 1, 1);
      y := z;
    }
  }

  lemma ConsultSolo(x: Scene) returns (y: Scene)
    requires x.a.at == Consulting && x.a.job.Commit? && x.a.job.manifest.key in x.shared.grants.outcomes
    ensures Leads(x, y, 1) && y.a.replayed
  {
    y := Step(x, Fine);
    ConsultStep(x, Fine);
    LeadsOne(x, y);
  }

  /** Without faults and interference, a commit for a key with a recorded outcome is at some point
      answered by replay if and only if it is admitted, its budget and its grant can be reserved, memory
      and store agree that its manifest is AUTHORIZED, and the outbox takes its intent. */
  lemma ReplayedExactlyWhen(x: Scene)
    requires Launched(x) && x.a.job.manifest.key in x.shared.grants.outcomes
    ensures EverReplayed(x) <==> PassesOutbox(x)
  {
    ReserveSolo(x);
    if Reservable(x) {
      EnterSolo(x);
      if Movable(x, x.a.job.manifest.id, Committing) {
        OutboxDecides(x);
      }
    }
  }

  lemma OutboxDecides(x: Scene)
    requires Launched(x) && x.a.job.manifest.key in x.shared.grants.outcomes
    requires Reservable(x) && Movable(x, x.a.job.manifest.id, Committing) && Leads(x, AtOutbox(x), 7)
    ensures EverReplayed(x) <==> IntentAccepted(x.shared, x.a.job.manifest, x.a.job.grant)
  {
    var y := AtOutbox(x);
    var z := OutboxSolo(y);
    if IntentAccepted(x.shared, x.a.job.manifest, x.a.job.grant) {
      LeadsOn(x, y, z, 7, 2);
    } else {
      LeadsOn(x, y, z, 7, 1);
      GivingUpIsFinal(x, z, 8);
    }
  }

  // ---------- in reachable worlds ----------

  /** In a reachable world an AUTHORIZED manifest has no entry, so a key on record shuts the call out. */
  lemma FreshManifestNeedsFreshKey(w: World, m: Manifest, g: Grant)
    requires Inv(w) && Owned(w) && Stored(w.shared.lifecycle, m.id) == Authorized
    ensures IntentAccepted(w.shared, m, g) <==> !OnRecord(w.shared, m.key)
  {
    if OnRecord(w.shared, m.key) {
      var entry := w.shared.outbox.value[m.key];
      assert HasOwner(w, m.key, entry.manifest);
      var j :| 0 <= j < |w.attempts| && Owns(w.attempts[j], m.key, entry.manifest);
      EnteredIsPastAuthorized(w.shared, w.attempts[j]);
    }
  }

  lemma EnteredIsPastAuthorized(s: Shared, a: Attempt)
    requires AttemptFits(s, a) && a.entered
    ensures Stored(s.lifecycle, ManifestId(a.job)) != Authorized
  {
  }

  /** The world in which engine e has just been asked to commit. */
  function Asked(withOutbox: bool, acts: seq<Action>, e: nat, m: Manifest, g: Grant): World {
    Perform(Run(withOutbox, acts), Start(e, Commit(m, g)))
  }

  /** After any run whatsoever, for a key with a recorded outcome: a commit that then runs undisturbed is
      answered by replay if and only if the key is not on record in the outbox, the manifest is AUTHORIZED
      in the store and to this engine, and the call is admitted with budget and grant available. */
  lemma RetryIsReplayedExactlyWhen(withOutbox: bool, acts: seq<Action>, e: nat, m: Manifest, g: Grant)
    requires m.key in Run(withOutbox, acts).shared.grants.outcomes
    ensures var w := Run(withOutbox, acts);
            Replays(Asked(withOutbox, acts, e, m, g), |w.attempts|) <==>
              && !OnRecord(w.shared, m.key)
              && Stored(w.shared.lifecycle, m.id) == Authorized
              && (m.id in Memory(w, e) ==> Memory(w, e)[m.id] == Authorized)
              && Admitted(w.shared, m, g) && BudgetAvailable(w.shared, m, g) && GrantAvailable(w.shared, g)
  {
    var w, v := Run(withOutbox, acts), Asked(withOutbox, acts, e, m, g);
    var x := SceneOf(v, |w.attempts|);
    ReplayedExactlyWhen(x);
    ReplaysIsEverReplayed(v, |w.attempts|);
    EveryEntryHasItsCall(withOutbox, acts);
    if Stored(w.shared.lifecycle, m.id) == Authorized {
      FreshManifestNeedsFreshKey(w, m, g);
    }
    MovableMeans(x, m.id);
  }

  ghost predicate ReplaysAfter(w: World, i: nat, n: nat) {
    var v := RunFrom(w, Steps(i, n));
    i < |v.attempts| && v.attempts[i].replayed
  }

  /** Some number of undisturbed steps of attempt i leads to a replay. */
  ghost predicate Replays(w: World, i: nat) {
    exists n: nat :: ReplaysAfter(w, i, n)
  }

  lemma {:induction false} PathExists(x: Scene, n: nat) returns (path: seq<Scene>)
    ensures Quiet(path) && |path| == n + 1 && path[0] == x
    decreases n
  {
    if n == 0 {
      path := [x];
      assert Quiet(path);
    } else {
      var front := PathExists(x, n - 1);
      path := front + [Step(front[n - 1], Fine)];
      forall j | 0 <= j < |path| - 1
        ensures IsStep(path, j)
      {
        if j < n - 1 {
          StepCopied(front, j, path, j);
        }
      }
      assert Quiet(path);
    }
  }

  lemma RunReplaysIsReplayed(w: World, i: nat, n: nat)
    requires i < |w.attempts| && ReplaysAfter(w, i, n)
    ensures EverReplayed(SceneOf(w, i))
  {
    var path := PathExists(SceneOf(w, i), n);
    PathIsRun(w, i, path, n);
    assert Leads(SceneOf(w, i), path[n], n);
  }

  lemma ReplayedIsRunReplays(w: World, i: nat, y: Scene, n: nat)
    requires i < |w.attempts| && Leads(SceneOf(w, i), y, n) && y.a.replayed
    ensures ReplaysAfter(w, i, n)
  {
    var path :| Quiet(path) && |path| == n + 1 && path[0] == SceneOf(w, i) && path[n] == y;
    PathIsRun(w, i, path, n);
  }

  lemma ReplaysIsEverReplayed(w: World, i: nat)
    requires i < |w.attempts|
    ensures Replays(w, i) <==> EverReplayed(SceneOf(w, i))
  {
    if Replays(w, i) {
      var n: nat :| ReplaysAfter(w, i, n);
      RunReplaysIsReplayed(w, i, n);
    }
    if EverReplayed(SceneOf(w, i)) {
      var y: Scene, n: nat :| Leads(SceneOf(w, i), y, n) && y.a.replayed;
      ReplayedIsRunReplays(w, i, y, n);
    }
  }

  lemma MovableMeans(x: Scene, id: string)
    ensures Movable(x, id, Committing) <==>
              Stored(x.shared.lifecycle, id) == Authorized && (id in x.records ==> x.records[id] == Authorized)
  {
  }
}
