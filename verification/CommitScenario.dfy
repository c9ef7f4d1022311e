/** A run from empty stores in which a payment settles and times out, recovery finds it and records its
    outcome, and the retry that should have been answered by replay is refused by the outbox. */
module CommitScenario {
  import opened Wrappers
  import opened Faults
  import opened Lifecycle
  import opened CommitProtocol
  import opened CommitInvariants
  import opened CommitRuns
  import opened CommitTheorems
  import opened CommitOutbox
  import opened CommitReplay
  import opened CommitEndings
  import opened RecoveryEndings
  import opened EngineSteps
  import Budget
  import GrantStore
  import Outbox
  import Pay = PaymentSimulator
  import Revocation

  // ---------- one call after another, by one engine ----------

  /** The scene in which engine 0 starts a job. */
  function Opening(w: World, job: Job): Scene {
    Scene(w.shared, Memory(w, 0), Launch(0, job))
  }

  function Closing(w: World, y: Scene): World {
    World(y.shared, w.memories[0 := y.records], w.attempts + [y.a])
  }

  lemma CallAlone(acts: seq<Action>, w: World, job: Job, y: Scene, n: nat) returns (more: seq<Action>)
    requires Run(true, acts) == w && n > 0 && Leads(Opening(w, job), y, n)
    ensures Run(true, more) == Closing(w, y) && Memory(Closing(w, y), 0) == y.records
  {
    var i := |w.attempts|;
    var v := Perform(w, Start(0, job));
    var path :| Quiet(path) && |path| == n + 1 && path[0] == Opening(w, job) && path[n] == y;
    PathIsRun(v, i, path, n);
    assert v.attempts[i := y.a] == w.attempts + [y.a];
    more := acts + [Start(0, job)] + Steps(i, n);
    assert (acts + [Start(0, job)])[..|acts|] == acts;
    RunSplits(Initial(true), acts + [Start(0, job)], Steps(i, n));
  }

  lemma TransitAlone(acts: seq<Action>, w: World, id: string, target: State) returns (more: seq<Action>, v: World)
    requires Run(true, acts) == w && Movable(Opening(w, Transit(id, target)), id, target)
    ensures Run(true, more) == v && v.shared == StoreState(w.shared, id, target)
            && Memory(v, 0) == Memory(w, 0)[id := target]
  {
    var x := Opening(w, Transit(id, target));
    TransitionSolo(x, Plain);
    more := CallAlone(acts, w, Transit(id, target), Moved(x, Plain), 4);
    v := Closing(w, Moved(x, Plain));
  }

  /** A manifest nobody knows yet is prepared, sealed and authorized. */
  lemma AuthorizeAlone(acts: seq<Action>, w: World, id: string) returns (more: seq<Action>, v: World)
    requires Run(true, acts) == w && id !in w.shared.lifecycle && id !in Memory(w, 0)
    ensures Run(true, more) == v && v.shared == w.shared.(lifecycle := w.shared.lifecycle[id := Authorized])
    ensures Memory(v, 0) == Memory(w, 0)[id := Authorized]
  {
    var a, u := TransitAlone(acts, w, id, Prepared);
    var b, t := TransitAlone(a, u, id, Sealed);
    more, v := TransitAlone(b, t, id, Authorized);
    assert v.shared.lifecycle == w.shared.lifecycle[id := Authorized];
    assert Memory(v, 0) == Memory(w, 0)[id := Authorized];
  }

  // ---------- the payment that times out ----------

  /** The provider will settle this payment and then time out. */
  predicate WillTimeOut(p: Pay.Provider, m: Manifest) {
    && m.key !in p.payments && !p.failNext && p.timeoutNext && Pay.PreconditionsHold(p, m.payment, m.expectedBalance)
    && m.payment.source in p.balances
  }

  predicate Fresh(s: Shared, key: string) {
    s.outbox.Some? && key !in s.outbox.value && key !in s.grants.outcomes
  }

  /** What a commit that times out leaves behind: the settled payment with the provider, the intent
      abandoned, the manifest FAILED, nothing consumed or in flight, and no outcome on record. */
  ghost predicate TimedOut(x: Scene, y: Scene)
    requires x.a.job.Commit?
  {
    var m, g := x.a.job.manifest, x.a.job.grant;
    && y.a.at.Done? && y.a.entered && !y.a.succeeded && !y.a.replayed
    && Pay.Evidence(y.shared.provider, m.key, m.payment) && AbandonedKey(y.shared, m.key)
    && y.shared.lifecycle == x.shared.lifecycle[m.id := Failed] && y.records == x.records[m.id := Failed]
    && y.shared.grants == Slotted(x.shared.grants, g, 0) && y.shared.ledger == x.shared.ledger
  }

  lemma TimeOutSolo(x: Scene) returns (y: Scene, n: nat)
    requires Launched(x) && Reservable(x) && Movable(x, x.a.job.manifest.id, Committing)
             && Budget.Sound(x.shared.ledger)
    requires Fresh(x.shared, x.a.job.manifest.key) && WillTimeOut(x.shared.provider, x.a.job.manifest)
    ensures Leads(x, y, n) && n > 0 && TimedOut(x, y)
  {
    var m := x.a.job.manifest;
    Pay.FirstReplyExactly(x.shared.provider, m.key, m.payment);
    y, n := NoSuccessSolo(x);
  }

  // ---------- the run ----------

  const Invoice := Pay.Payment("acct", "supplier", 10, "EUR", 0, "inv-1")
  const First := Manifest("m1", "invoice-1", Invoice, 10, None)
  const Second := Manifest("m2", "invoice-1", Invoice, 0, None)

  function GrantFor(m: Manifest): Grant {
    Grant("grant-" + m.id, Some(m), 1, None, None)
  }

  lemma Admissible(s: Shared, m: Manifest)
    requires GrantFor(m).id !in s.grants.slots
    ensures Admitted(s, m, GrantFor(m)) && BudgetAvailable(s, m, GrantFor(m)) && GrantAvailable(s, GrantFor(m))
  {
  }

  lemma FundedWorld() returns (acts: seq<Action>, w: World)
    ensures Run(true, acts) == w && w.attempts == [] && w.memories == map[]
    ensures w.shared.lifecycle == map[] && w.shared.grants == GrantStore.Grants(map[], map[], map[])
            && w.shared.outbox == Some(map[])
    ensures WillTimeOut(w.shared.provider, First)
  {
    var v := Initial(true);
    acts, w := OneAction([], v, Fund("acct", 10));
    acts, w := OneAction(acts, w, InjectTimeout);
  }

  lemma OneAction(acts: seq<Action>, w: World, act: Action) returns (more: seq<Action>, v: World)
    requires Run(true, acts) == w
    ensures Run(true, more) == v == Perform(w, act)
  {
    more := acts + [act];
    assert more[..|acts|] == acts;
    v := Run(true, more);
  }

  /** Nothing is known of the second manifest and its grant. */
  predicate SecondUnknown(w: World) {
    Second.id !in w.shared.lifecycle && Second.id !in Memory(w, 0) && GrantFor(Second).id !in w.shared.grants.slots
  }

  /** The first manifest is authorized, and its payment is about to time out. */
  lemma AboutToTimeOut() returns (acts: seq<Action>, w: World)
    ensures Run(true, acts) == w && SecondUnknown(w)
    ensures var x := Opening(w, Commit(First, GrantFor(First)));
            Reservable(x) && Movable(x, First.id, Committing) && Fresh(w.shared, First.key)
                && WillTimeOut(w.shared.provider, First)
  {
    var before, v := FundedWorld();
    acts, w := AuthorizeAlone(before, v, First.id);
    Admissible(w.shared, First);
    MovableMeans(Opening(w, Commit(First, GrantFor(First))), First.id);
  }

  /** Without the timeout the same commit is one that can be carried out. */
  lemma FirstCanBeCarriedOut() returns (acts: seq<Action>)
    ensures CanBeCarriedOut(Run(true, acts), 0, First, GrantFor(First))
  {
    var before, v := OneAction([], Initial(true), Fund("acct", 10));
    var w: World;
    acts, w := AuthorizeAlone(before, v, First.id);
    Admissible(w.shared, First);
  }

  /** The payment of the first manifest settles and times out, and its intent is abandoned. */
  lemma SettledAndTimedOut() returns (acts: seq<Action>, w: World)
    ensures Run(true, acts) == w && SecondUnknown(w)
    ensures AbandonedKey(w.shared, First.key) && Pay.Evidence(w.shared.provider, First.key, Invoice)
    ensures Stored(w.shared.lifecycle, First.id) == Failed && First.id in Memory(w, 0)
            && Memory(w, 0)[First.id] == Failed
  {
    var before, v := AboutToTimeOut();
    var x := Opening(v, Commit(First, GrantFor(First)));
    Reachable(true, before);
    var y, n := TimeOutSolo(x);
    acts := CallAlone(before, v, Commit(First, GrantFor(First)), y, n);
    w := Closing(v, y);
    TimedOutWorld(x, y);
  }

  lemma TimedOutWorld(x: Scene, y: Scene)
    requires x.a.job == Commit(First, GrantFor(First)) && TimedOut(x, y)
    requires Second.id !in x.shared.lifecycle && Second.id !in x.records
             && GrantFor(Second).id !in x.shared.grants.slots
    ensures Second.id !in y.shared.lifecycle && Second.id !in y.records && GrantFor(Second).id !in y.shared.grants.slots
    ensures Stored(y.shared.lifecycle, First.id) == Failed && First.id in y.records && y.records[First.id] == Failed
  {
    assert GrantFor(Second).id[7] != GrantFor(First).id[7];
  }

  /** Recovery finds the payment and records its outcome. */
  lemma SettledTimedOutRecovered() returns (acts: seq<Action>, w: World)
    ensures Run(true, acts) == w && SecondUnknown(w) && AbandonedKey(w.shared, First.key)
            && SettledKey(w.shared, First.key)
    ensures First.key in w.shared.grants.outcomes
  {
    var a0, w0 := SettledAndTimedOut();
    var z, n := RecoverySolo(Opening(w0, Recover(First)));
    acts := CallAlone(a0, w0, Recover(First), z, n);
    w := Closing(w0, z);
  }

  /** The whole story, from empty stores with an outbox: although the payment of the key is settled, and
      recovery has recorded its outcome, the retry with a fresh manifest, which passes every check and
      moves its manifest to COMMITTING, is refused: it ends neither replayed nor carried out. */
  lemma RecoveredPaymentIsNotReplayed() returns (acts: seq<Action>, i: nat)
    ensures i < |Run(true, acts).attempts|
    ensures var w := Run(true, acts);
            var a := w.attempts[i];
            && SettledKey(w.shared, Second.key) && Second.key in w.shared.grants.outcomes
               && AbandonedKey(w.shared, Second.key)
            && a.job == Commit(Second, GrantFor(Second)) && a.at.Done? && a.entered && !a.replayed && !a.succeeded
  {
    var a0, w0 := SettledTimedOutRecovered();
    var a1, w1 := AuthorizeAlone(a0, w0, Second.id);
    var x := Opening(w1, Commit(Second, GrantFor(Second)));
    Admissible(w1.shared, Second);
    MovableMeans(x, Second.id);
    Reachable(true, a1);
    var y := RefusedSolo(x);
    acts := CallAlone(a1, w1, Commit(Second, GrantFor(Second)), y, 10);
    i := |w1.attempts|;
  }
}
