/** What the results over runs say of one call of the engine object. */
module EngineRuns {
  import opened Wrappers
  import opened Faults
  import opened CommitProtocol
  import opened CommitInvariants
  import opened CommitTheorems
  import opened CommitAccounts
  import opened EngineTrace

  /** At most one action of a run calls the adapter for a manifest id. */
  ghost predicate OneAdapterCall(withOutbox: bool, acts: seq<Action>, id: string) {
    forall p, q :: 0 <= p < q < |acts| ==> !(CallAt(withOutbox, acts, p, id) && CallAt(withOutbox, acts, q, id))
  }

  ghost predicate CallAt(withOutbox: bool, acts: seq<Action>, p: nat, id: string)
    requires p < |acts|
  {
    CallsAdapter(Run(withOutbox, acts[..p]), acts[p], id)
  }

  lemma AdapterIsCalledOnce(withOutbox: bool, acts: seq<Action>, id: string)
    ensures OneAdapterCall(withOutbox, acts, id)
  {
    forall p, q | 0 <= p < q < |acts|
      ensures !(CallAt(withOutbox, acts, p, id) && CallAt(withOutbox, acts, q, id))
    {
      if CallAt(withOutbox, acts, p, id) {
        AdapterIsCalledAtMostOnce(withOutbox, acts[..p], acts[p], acts[p + 1..q], acts[q], id);
        assert acts[..p] + [acts[p]] + acts[p + 1..q] == acts[..q];
      }
    }
  }

  /** The run in which engine e is asked for a job after some history, and its steps are interleaved with
      what others do. */
  function WholeRun(history: seq<Action>, e: nat, job: Job, i: nat, others: seq<seq<Action>>,
                    trace: seq<Seen>): seq<Action>
    requires |others| == |trace|
  {
    history + [Start(e, job)] + Flat(i, others, trace)
  }

  /** The scenes recorded by a call of the engine object, on stores that others change by steps of the
      protocol, are those of that attempt in a run from empty stores. */
  lemma EngineCallIsRun(
      withOutbox: bool, history: seq<Action>, e: nat, job: Job, others: seq<seq<Action>>, scenes: seq<Scene>,
      trace: seq<Seen>)
    requires var w := Perform(Run(withOutbox, history), Start(e, job));
             var i := |Run(withOutbox, history).attempts|;
             && Passed(scenes, trace) && scenes[0] == SceneOf(w, i)
             && |others| == |trace| && Produces(w, i, others, trace)
    ensures var i := |Run(withOutbox, history).attempts|;
            var v := Run(withOutbox, WholeRun(history, e, job, i, others, trace));
            i < |v.attempts| && v.attempts[i] == scenes[|trace|].a
  {
    var i := |Run(withOutbox, history).attempts|;
    var w := Perform(Run(withOutbox, history), Start(e, job));
    PassedIsReplay(scenes, trace);
    TraceIsRun(w, i, others, trace);
    var opening := history + [Start(e, job)];
    assert opening[..|history|] == history;
    assert Run(withOutbox, opening) == w;
    RunSplits(Initial(withOutbox), opening, Flat(i, others, trace));
  }

  /** So, whatever the others did: a commit of the engine object never runs into a store's error branch;
      if it leaves in order its own steps have left nothing reserved on any budget or grant, whoever else
      holds what; it is thrown out only by a raise of one of its own calls; and the adapter is called at
      most once for its manifest, by this engine or any other. */
  lemma EngineCommitIsSafe(
      withOutbox: bool, history: seq<Action>, e: nat, m: Manifest, g: Grant, others: seq<seq<Action>>,
      scenes: seq<Scene>, trace: seq<Seen>, budget: string, grant: string)
    requires var w := Perform(Run(withOutbox, history), Start(e, Commit(m, g)));
             var i := |Run(withOutbox, history).attempts|;
             && Passed(scenes, trace) && scenes[0] == SceneOf(w, i)
             && |others| == |trace| && Produces(w, i, others, trace)
    ensures var i := |Run(withOutbox, history).attempts|;
            var acts := WholeRun(history, e, Commit(m, g), i, others, trace);
            var a := scenes[|trace|].a;
            && !a.at.Stuck?
            && (a.at.Done? ==>
                  Net(withOutbox, acts, i, BudgetHeld(budget)) == 0 && Net(withOutbox, acts, i, GrantHeld(grant)) == 0)
            && (Undisturbed(acts, i) ==> !a.at.Thrown?)
            && OneAdapterCall(withOutbox, acts, m.id)
  {
    var i := |Run(withOutbox, history).attempts|;
    var acts := WholeRun(history, e, Commit(m, g), i, others, trace);
    EngineCallIsRun(withOutbox, history, e, Commit(m, g), others, scenes, trace);
    EngineJob(withOutbox, history, e, Commit(m, g), others, trace);
    AdapterIsCalledOnce(withOutbox, acts, m.id);
    Reachable(withOutbox, acts);
    assert AttemptFits(Run(withOutbox, acts).shared, Run(withOutbox, acts).attempts[i]);
    if scenes[|trace|].a.at.Done? {
      EveryExitSettlesItsAccount(withOutbox, acts, i, budget, grant);
    }
    if Undisturbed(acts, i) {
      UndisturbedIsNeverThrown(withOutbox, acts, i);
    }
  }

  lemma EngineJob(withOutbox: bool, history: seq<Action>, e: nat, job: Job, others: seq<seq<Action>>, trace: seq<Seen>)
    requires |others| == |trace|
    ensures var i := |Run(withOutbox, history).attempts|;
            var v := Run(withOutbox, WholeRun(history, e, job, i, others, trace));
            i < |v.attempts| && v.attempts[i].job == job
  {
    var i := |Run(withOutbox, history).attempts|;
    var opening := history + [Start(e, job)];
    assert opening[..|history|] == history;
    Reachable(withOutbox, opening);
    RunSplits(Initial(withOutbox), opening, Flat(i, others, trace));
    RunLater(Run(withOutbox, opening), Flat(i, others, trace));
    assert AttemptLater(Run(withOutbox, opening).attempts[i],
                        RunFrom(Run(withOutbox, opening), Flat(i, others, trace)).attempts[i]);
  }
}
