/** The invariant of the commit protocol holds in every reachable world. */
module CommitRuns {
  import opened Wrappers
  import opened Faults
  import opened Lifecycle
  import opened CommitProtocol
  import opened CommitInvariants
  import Budget
  import GrantStore
  import Outbox
  import Pay = PaymentSimulator

  lemma SceneReady(w: World, i: nat)
    requires Inv(w) && i < |w.attempts|
    ensures Ready(SceneOf(w, i))
  {
    var a := w.attempts[i];
    if a.charge.Some? && ProfileOf(a.at).budget {
      ShareWithinTotal(w.shared, w.attempts, i, BudgetHeld(a.charge.value.0));
    }
    if a.job.Commit? && ProfileOf(a.at).grant {
      ShareWithinTotal(w.shared, w.attempts, i, GrantHeld(a.job.grant.id));
    }
  }

  /** Only the attempt that recorded an intent can abandon it. */
  lemma IntentsApart(w: World, i: nat, j: nat, m: Move)
    requires Inv(w) && i < |w.attempts| && j < |w.attempts| && i != j
    requires SoundMove(SceneOf(w, i), m) && m.op.Abandon?
    ensures w.attempts[j].job.Commit? ==>
              m.op.key != w.attempts[j].job.manifest.key || !ProfileOf(w.attempts[j].at).open
  {
    var a, b := w.attempts[i], w.attempts[j];
    if b.job.Commit? && ProfileOf(b.at).open {
      AbandonerStands(w.shared, a);
      OpenHasEntered(w.shared, b);
      CallsEnterApart(w.attempts, i, j);
    }
  }

  lemma AbandonerStands(s: Shared, a: Attempt)
    requires AttemptFits(s, a) && a.job.Commit? && a.at.FailingIntent? && s.outbox.Some?
    ensures a.entered && a.job.manifest.key in s.outbox.value
    ensures s.outbox.value[a.job.manifest.key].manifest == a.job.manifest
  {
  }

  lemma OpenHasEntered(s: Shared, b: Attempt)
    requires AttemptFits(s, b) && b.job.Commit? && ProfileOf(b.at).open
    ensures b.entered
    ensures s.outbox.Some? ==>
              b.job.manifest.key in s.outbox.value && s.outbox.value[b.job.manifest.key].manifest == b.job.manifest
  {
  }

  lemma CallsEnterApart(attempts: seq<Attempt>, i: nat, j: nat)
    requires EntriesDistinct(attempts) && i < |attempts| && j < |attempts| && i != j
    requires attempts[i].entered && attempts[j].entered
    ensures ManifestId(attempts[i].job) != ManifestId(attempts[j].job)
  {
  }

  lemma OthersFit(w: World, i: nat, m: Move, j: nat)
    requires Inv(w) && i < |w.attempts| && j < |w.attempts| && i != j
    requires SoundMove(SceneOf(w, i), m)
    ensures AttemptFits(SharedAfter(w.shared, m.op), w.attempts[j])
  {
    assert AttemptFits(w.shared, w.attempts[j]);
    if m.op.Abandon? {
      IntentsApart(w, i, j, m);
    }
    OpKeepsOthers(w.shared, m.op, w.attempts[j]);
  }

  /** A second COMMITTING write for a manifest would have to start from AUTHORIZED, but the
      first one has already lifted the stored state above it. */
  lemma EntriesStayDistinct(w: World, i: nat, m: Move)
    requires Inv(w) && i < |w.attempts| && SoundMove(SceneOf(w, i), m)
    ensures EntriesDistinct(w.attempts[i := AttemptAfter(w.attempts[i], m)])
  {
    var a := w.attempts[i];
    forall j | 0 <= j < |w.attempts| && j != i && w.attempts[j].entered && AttemptAfter(a, m).entered
      ensures ManifestId(w.attempts[j].job) != ManifestId(a.job)
    {
      assert AttemptFits(w.shared, w.attempts[j]);
    }
  }

  lemma AdvanceKeeps(w: World, i: nat, fault: Fault)
    requires Inv(w)
    ensures Inv(Perform(w, Advance(i, fault)))
  {
    if i < |w.attempts| {
      var x := SceneOf(w, i);
      SceneReady(w, i);
      MoveSound(x, fault);
      var m := NextMove(x, fault);
      var b := AttemptAfter(x.a, m);
      OpKeepsSound(w.shared, m.op);
      ActorFits(x, m);
      EntriesStayDistinct(w, i, m);
      var w' := Perform(w, Advance(i, fault));
      forall j | 0 <= j < |w'.attempts|
        ensures AttemptFits(w'.shared, w'.attempts[j])
      {
        if j != i {
          OthersFit(w, i, m, j);
        }
      }
      forall t
        ensures Total(w'.attempts, t) == Reading(w'.shared, t)
      {
        TotalUpdate(w.attempts, i, b, t);
        AccountMetered(x.a, b, m.op, t);
        OpMetered(w.shared, m.op, t);
      }
    }
  }

  lemma LaunchFits(s: Shared, engine: nat, job: Job)
    ensures AttemptFits(s, Launch(engine, job))
    ensures forall t :: Share(Launch(engine, job), t) == 0
  {
  }

  lemma StartKeeps(w: World, engine: nat, job: Job)
    requires Inv(w)
    ensures Inv(Perform(w, Start(engine, job)))
  {
    var w' := Perform(w, Start(engine, job));
    var n := |w.attempts|;
    assert w'.attempts[..n] == w.attempts;
    LaunchFits(w.shared, engine, job);
    forall j | 0 <= j < |w'.attempts|
      ensures AttemptFits(w'.shared, w'.attempts[j])
    {
      if j < n {
        assert AttemptFits(w.shared, w.attempts[j]);
      }
    }
  }

  lemma OutsideProvider(s: Shared, act: Action)
    requires Pay.Conserving(s.provider)
    ensures Pay.Conserving(Outside(s, act).provider) && Pay.Extends(s.provider, Outside(s, act).provider)
  {
    if act.Fund? {
      Pay.FundKeeps(s.provider, act.account, act.units);
    } else if act.Submit? {
      Pay.SubmitKeeps(s.provider, act.key, act.payment);
    }
  }

  lemma OutsideSound(s: Shared, act: Action)
    requires StoresSound(s)
    ensures StoresSound(Outside(s, act))
  {
    OutsideProvider(s, act);
  }

  lemma OutsideMetered(s: Shared, act: Action, m: Meter)
    ensures Reading(Outside(s, act), m) == Reading(s, m)
  {
  }

  lemma OutsideFits(s: Shared, act: Action, b: Attempt)
    requires StoresSound(s) && AttemptFits(s, b)
    ensures AttemptFits(Outside(s, act), b)
  {
    OutsideProvider(s, act);
  }

  lemma OutsideKeeps(w: World, act: Action)
    requires Inv(w) && !act.Start? && !act.Advance?
    ensures Inv(Perform(w, act))
  {
    OutsideSound(w.shared, act);
    forall j | 0 <= j < |w.attempts|
      ensures AttemptFits(Outside(w.shared, act), w.attempts[j])
    {
      OutsideFits(w.shared, act, w.attempts[j]);
    }
    forall t
      ensures Reading(Outside(w.shared, act), t) == Reading(w.shared, t)
    {
      OutsideMetered(w.shared, act, t);
    }
  }

  lemma PerformKeeps(w: World, act: Action)
    requires Inv(w)
    ensures Inv(Perform(w, act))
  {
    match act
    case Start(engine, job) => StartKeeps(w, engine, job);
    case Advance(i, fault) => AdvanceKeeps(w, i, fault);
    case _ => OutsideKeeps(w, act);
  }

  lemma InitialHolds(withOutbox: bool)
    ensures Inv(Initial(withOutbox))
  {
  }

  lemma {:induction false} RunKeeps(w: World, acts: seq<Action>)
    requires Inv(w)
    ensures Inv(RunFrom(w, acts))
    decreases |acts|
  {
    if acts != [] {
      RunKeeps(w, acts[..|acts| - 1]);
      PerformKeeps(RunFrom(w, acts[..|acts| - 1]), acts[|acts| - 1]);
    }
  }
}
