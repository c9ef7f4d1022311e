/** How a recovery that runs undisturbed ends, for every state of the stores. */
module RecoveryEndings {
  import opened Wrappers
  import opened Faults
  import opened Lifecycle
  import opened CommitProtocol
  import opened EngineSteps
  import opened CommitReplay
  import GrantStore
  import Outbox
  import Pay = PaymentSimulator

  predicate Recovering(x: Scene) {
    x.a.job.Recover? && x.a == Launch(x.a.engine, x.a.job)
  }

  /** The provider's books hold the payment of this manifest: a settled record under its key with its amount
      and its beneficiary. */
  predicate PaymentFound(p: Pay.Provider, m: Manifest) {
    && m.key in p.payments && p.payments[m.key].settled
    && p.payments[m.key].amount == m.payment.amount && p.payments[m.key].beneficiary == m.payment.beneficiary
  }

  type Intents = Option<Outbox.Table<Manifest>>

  predicate IsPending(o: Intents, key: string) {
    o.Some? && key in o.value && o.value[key].status == Outbox.Pending
  }

  /** A pending intent is confirmed; a confirmed or abandoned one, or none, is left alone. */
  function Reconfirmed(o: Intents, key: string): Intents {
    if IsPending(o, key) then Some(o.value[key := o.value[key].(status := Outbox.Confirmed)]) else o
  }

  lemma NothingFound(x: Scene)
    requires Recovering(x) && !PaymentFound(x.shared.provider, x.a.job.manifest)
    ensures Leads(x, Goes(x, Done), 1)
  {
    ProbeStep(x, Fine);
    LeadsOne(x, Goes(x, Done));
  }

  /** The scene in which the outcome is on record and the intent is settled. */
  function Backfilled(x: Scene): Scene
    requires x.a.job.Recover?
  {
    var key := x.a.job.manifest.key;
    Goes(x, Deciding).(
      shared := x.shared.(
        grants := x.shared.grants.(outcomes := x.shared.grants.outcomes[key := "settled:" + key]),
        outbox := Reconfirmed(x.shared.outbox, key)))
  }

  lemma OutcomeBackfilled(x: Scene) returns (y: Scene)
    requires Recovering(x) && PaymentFound(x.shared.provider, x.a.job.manifest)
    ensures Leads(x, y, 2)
    ensures var key := x.a.job.manifest.key;
            y == Goes(x, Peeking).(
                   shared := x.shared.(
                     grants := x.shared.grants.(outcomes := x.shared.grants.outcomes[key := "settled:" + key])))
  {
    var z := Goes(x, Backfilling);
    ProbeStep(x, Fine);
    LeadsOne(x, z);
    y := Step(z, Fine);
    BackfillStep(z, Fine);
    LeadsOne(z, y);
    LeadsOn(x, z, y, 1, 1);
  }

  lemma ReachesDecision(x: Scene) returns (n: nat)
    requires Recovering(x) && PaymentFound(x.shared.provider, x.a.job.manifest)
    ensures Leads(x, Backfilled(x), n)
  {
    var y := OutcomeBackfilled(x);
    PeekStep(y, Fine);
    LeadsOne(y, Step(y, Fine));
    LeadsOn(x, y, Step(y, Fine), 2, 1);
    n := 3;
    if IsPending(x.shared.outbox, x.a.job.manifest.key) {
      var z := Goes(y, Confirming);
      ReconfirmStep(z, Fine);
      LeadsOne(z, Backfilled(x));
      LeadsOn(x, z, Backfilled(x), 3, 1);
      n := 4;
    }
  }

  /** The decision about the lifecycle: over FAILED, in memory and in the store, it is RECOVERED_COMMITTED;
      otherwise the store is left alone. */
  lemma Reconciles(x: Scene) returns (y: Scene, n: nat)
    requires x.a.job.Recover? && x.a.at == Deciding
    ensures Leads(x, y, n) && n > 0 && y.a == x.a.(at := Done)
    ensures var m := x.a.job.manifest;
            if Known(x, m.id) == Failed && Stored(x.shared.lifecycle, m.id) == Failed
            then y.shared == x.shared.(lifecycle := x.shared.lifecycle[m.id := RecoveredCommitted])
                 && y.records == x.records[m.id := RecoveredCommitted]
            else y.shared == x.shared
  {
    var m := x.a.job.manifest;
    var state := Known(x, m.id);
    DecideStep(x, Fine);
    SourcesExactly(state, RecoveredCommitted);
    if state == Failed {
      var z := Goes(x, Moving(Reconcile, Read)).(records := x.records[m.id := Failed]);
      LeadsOne(x, z);
      y, n := MovesFromFailed(z);
      LeadsOn(x, z, y, 1, n);
      n := 1 + n;
    } else {
      y, n := Goes(x, Done).(records := x.records[m.id := state]), 1;
      LeadsOne(x, y);
    }
  }

  lemma MovesFromFailed(x: Scene) returns (y: Scene, n: nat)
    requires x.a.job.Recover? && x.a.at == Moving(Reconcile, Read)
    requires x.a.job.manifest.id in x.records && x.records[x.a.job.manifest.id] == Failed
    ensures Leads(x, y, n) && y.a == x.a.(at := Done)
    ensures var m := x.a.job.manifest;
            if Stored(x.shared.lifecycle, m.id) == Failed
            then y.shared == x.shared.(lifecycle := x.shared.lifecycle[m.id := RecoveredCommitted])
                 && y.records == x.records[m.id := RecoveredCommitted]
            else y.shared == x.shared
  {
    if Stored(x.shared.lifecycle, x.a.job.manifest.id) == Failed {
      TransitionSolo(x, Reconcile);
      y, n := Moved(x, Reconcile), 4;
    } else {
      y, n := TransitionSoloFails(x, Reconcile);
    }
  }

  /** Recovery asks the provider and no one else. Without evidence of this very payment it changes nothing
      at all. With it, it records the outcome of the key, confirms a pending intent, never submits anything,
      and moves the manifest from FAILED to RECOVERED_COMMITTED if that is where memory and store have it. */
  lemma RecoverySolo(x: Scene) returns (y: Scene, n: nat)
    requires Recovering(x)
    ensures Leads(x, y, n) && n > 0 && y.a == x.a.(at := Done)
    ensures !PaymentFound(x.shared.provider, x.a.job.manifest) ==> y == Goes(x, Done)
    ensures PaymentFound(x.shared.provider, x.a.job.manifest) ==>
              var m := x.a.job.manifest;
              var failed := Known(x, m.id) == Failed && Stored(x.shared.lifecycle, m.id) == Failed;
              && y.shared ==
                   Shared(if failed then x.shared.lifecycle[m.id := RecoveredCommitted] else x.shared.lifecycle,
                          x.shared.grants.(outcomes := x.shared.grants.outcomes[m.key := "settled:" + m.key]),
                          Reconfirmed(x.shared.outbox, m.key), x.shared.ledger, x.shared.provider)
              && (failed ==> y.records == x.records[m.id := RecoveredCommitted])
  {
    if PaymentFound(x.shared.provider, x.a.job.manifest) {
      y, n := FoundSolo(x);
    } else {
      NothingFound(x);
      y, n := Goes(x, Done), 1;
    }
  }

  lemma FoundSolo(x: Scene) returns (y: Scene, n: nat)
    requires Recovering(x) && PaymentFound(x.shared.provider, x.a.job.manifest)
    ensures Leads(x, y, n) && n > 0 && y.a == x.a.(at := Done)
    ensures var m, z := x.a.job.manifest, Backfilled(x);
            var failed := Known(x, m.id) == Failed && Stored(x.shared.lifecycle, m.id) == Failed;
            && y.shared == z.shared.(lifecycle := if failed then x.shared.lifecycle[m.id := RecoveredCommitted]
                                                  else x.shared.lifecycle)
            && (failed ==> y.records == x.records[m.id := RecoveredCommitted])
  {
    var k := ReachesDecision(x);
    var j: nat;
    y, j := Reconciles(Backfilled(x));
    LeadsOn(x, Backfilled(x), y, k, j);
    n := k + j;
  }
}
