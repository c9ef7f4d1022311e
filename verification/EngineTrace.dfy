/** What one call of the engine sees: before each of its store, journal or adapter calls the stores
    may have been changed by others. */
module EngineTrace {
  import opened Faults
  import opened Lifecycle
  import opened CommitProtocol
  import opened CommitTheorems

  /** The stores as one call found them, and whether that call raised by itself. */
  datatype Seen = Seen(found: Shared, fault: Fault)

  /** The steps of one attempt, each taken from the stores it found. */
  function Replay(start: Scene, trace: seq<Seen>): Scene {
    if trace == [] then start
    else
      var x, last := Replay(start, trace[..|trace| - 1]), trace[|trace| - 1];
      Step(Scene(last.found, x.records, x.a), last.fault)
  }

  /** The scenes an attempt passes through: each step leads from the scene before it, at the stores it
      found, to the scene after it. */
  ghost predicate Passed(scenes: seq<Scene>, trace: seq<Seen>) {
    && |scenes| == |trace| + 1
    && forall k {:trigger trace[k]} :: 0 <= k < |trace| ==>
         scenes[k + 1] == Step(Scene(trace[k].found, scenes[k].records, scenes[k].a), trace[k].fault)
  }

  lemma PassedOn(scenes: seq<Scene>, trace: seq<Seen>, last: Seen)
    requires Passed(scenes, trace)
    ensures var x := scenes[|trace|];
            Passed(scenes + [Step(Scene(last.found, x.records, x.a), last.fault)], trace + [last])
  {
  }

  /** The last scene is the replay of the trace from the first. */
  lemma {:induction false} PassedIsReplay(scenes: seq<Scene>, trace: seq<Seen>)
    requires Passed(scenes, trace)
    ensures scenes[|trace|] == Replay(scenes[0], trace)
    decreases |trace|
  {
    if trace != [] {
      var n := |trace| - 1;
      PassedIsReplay(scenes[..n + 1], trace[..n]);
      assert trace[n].found == trace[n].found;
    }
  }

  /** Actions of others: none of them advances an attempt of this engine. */
  ghost predicate ByOthers(w: World, acts: seq<Action>, engine: nat) {
    forall k :: 0 <= k < |acts| ==> LeavesEngine(RunFrom(w, acts[..k]), acts[k], engine)
  }

  predicate LeavesEngine(w: World, act: Action, engine: nat) {
    act.Advance? && act.i < |w.attempts| ==> w.attempts[act.i].engine != engine
  }

  lemma {:induction false} OthersLeaveEngine(w: World, acts: seq<Action>, i: nat)
    requires i < |w.attempts| && ByOthers(w, acts, w.attempts[i].engine)
    ensures var v := RunFrom(w, acts);
            i < |v.attempts| && v.attempts[i] == w.attempts[i]
            && Memory(v, w.attempts[i].engine) == Memory(w, w.attempts[i].engine)
    decreases |acts|
  {
    if acts != [] {
      var front := acts[..|acts| - 1];
      forall k | 0 <= k < |front|
        ensures LeavesEngine(RunFrom(w, front[..k]), front[k], w.attempts[i].engine)
      {
        assert front[..k] == acts[..k];
      }
      OthersLeaveEngine(w, front, i);
      assert LeavesEngine(RunFrom(w, acts[..|acts| - 1]), acts[|acts| - 1], w.attempts[i].engine);
    }
  }

  /** The actions of the whole: before each step of attempt i, some actions of others. */
  function Flat(i: nat, others: seq<seq<Action>>, trace: seq<Seen>): seq<Action>
    requires |others| == |trace|
  {
    if trace == [] then []
    else
      var n := |trace| - 1;
      Flat(i, others[..n], trace[..n]) + others[n] + [Advance(i, trace[n].fault)]
  }

  /** The run in which the others produce exactly what the trace found. */
  ghost predicate Produces(w: World, i: nat, others: seq<seq<Action>>, trace: seq<Seen>)
    requires i < |w.attempts| && |others| == |trace|
  {
    forall n :: 0 <= n < |trace| ==> ProducedAt(w, i, others, trace, n)
  }

  ghost predicate ProducedAt(w: World, i: nat, others: seq<seq<Action>>, trace: seq<Seen>, n: nat)
    requires i < |w.attempts| && |others| == |trace| && n < |trace|
  {
    var before := RunFrom(w, Flat(i, others[..n], trace[..n]));
    ByOthers(before, others[n], w.attempts[i].engine) && RunFrom(before, others[n]).shared == trace[n].found
  }

  /** Attempt i of the world, and the memory of its engine, are those of the scene. */
  predicate Agrees(v: World, i: nat, x: Scene) {
    i < |v.attempts| && v.attempts[i] == x.a && Memory(v, x.a.engine) == x.records
  }

  lemma AdvanceAgrees(v: World, i: nat, x: Scene, fault: Fault)
    requires Agrees(v, i, x)
    ensures var y := Step(Scene(v.shared, x.records, x.a), fault);
            Agrees(Perform(v, Advance(i, fault)), i, y) && Perform(v, Advance(i, fault)).shared == y.shared
                && y.a.engine == x.a.engine
  {
  }

  lemma ProducesPrefix(w: World, i: nat, others: seq<seq<Action>>, trace: seq<Seen>, n: nat)
    requires i < |w.attempts| && |others| == |trace| && Produces(w, i, others, trace) && n <= |trace|
    ensures Produces(w, i, others[..n], trace[..n])
  {
    forall k | 0 <= k < n
      ensures ProducedAt(w, i, others[..n], trace[..n], k)
    {
      assert ProducedAt(w, i, others, trace, k);
      assert others[..n][..k] == others[..k] && trace[..n][..k] == trace[..k];
    }
  }

  /** The last step of the run and of the trace it produces. */
  lemma LastStep(w: World, i: nat, others: seq<seq<Action>>, trace: seq<Seen>, n: nat)
    requires i < |w.attempts| && |others| == |trace| == n + 1 && Produces(w, i, others, trace)
    ensures var before := RunFrom(w, Flat(i, others[..n], trace[..n]));
            && ByOthers(before, others[n], w.attempts[i].engine) && RunFrom(before, others[n]).shared == trace[n].found
            && RunFrom(w, Flat(i, others, trace)) == Perform(RunFrom(before, others[n]), Advance(i, trace[n].fault))
  {
    assert ProducedAt(w, i, others, trace, n);
    var front := Flat(i, others[..n], trace[..n]);
    RunSplits(w, front, others[n]);
    var all := front + others[n] + [Advance(i, trace[n].fault)];
    assert all[..|all| - 1] == front + others[n];
  }

  /** A trace of the sequential engine is a run of the machine: the run that interleaves the attempt's
      steps with the others' actions leads the attempt and its engine's memory to where the trace leads
      them. */
  lemma {:induction false} TraceIsRun(w: World, i: nat, others: seq<seq<Action>>, trace: seq<Seen>)
    requires i < |w.attempts| && |others| == |trace| && Produces(w, i, others, trace)
    ensures var v := RunFrom(w, Flat(i, others, trace));
            var x := Replay(SceneOf(w, i), trace);
            Agrees(v, i, x) && x.a.engine == w.attempts[i].engine && (trace != [] ==> v.shared == x.shared)
    decreases |trace|
  {
    if trace != [] {
      var n := |trace| - 1;
      ProducesPrefix(w, i, others, trace, n);
      TraceIsRun(w, i, others[..n], trace[..n]);
      var before := RunFrom(w, Flat(i, others[..n], trace[..n]));
      LastStep(w, i, others, trace, n);
      OthersLeaveEngine(before, others[n], i);
      AdvanceAgrees(RunFrom(before, others[n]), i, Replay(SceneOf(w, i), trace[..n]), trace[n].fault);
    }
  }
}
