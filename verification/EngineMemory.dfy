/** What an engine's memory says about the store after a commit, although others use the store between any
    two of its calls: a record that says COMMITTED is backed by a write of this very call. */
module EngineMemory {
  import opened Wrappers
  import opened Faults
  import opened Lifecycle
  import opened CommitProtocol
  import opened CommitInvariants
  import opened EngineSteps
  import opened EngineTrace

  /** Call k of the trace found the manifest in one state and left it in another. */
  predicate WroteAt(scenes: seq<Scene>, trace: seq<Seen>, k: nat, id: string, from: State, target: State)
    requires |scenes| == |trace| + 1 && k < |trace|
  {
    Stored(trace[k].found.lifecycle, id) == from && Stored(scenes[k + 1].shared.lifecycle, id) == target
  }

  /** Some call of the trace did. */
  ghost predicate StoredByCall(scenes: seq<Scene>, trace: seq<Seen>, id: string, from: State, target: State)
    requires |scenes| == |trace| + 1
  {
    exists k :: 0 <= k < |trace| && WroteAt(scenes, trace, k, id, from, target)
  }

  predicate Remembers(x: Scene, id: string, state: State) {
    id in x.records && x.records[id] == state
  }

  /** What the call knows of its outcome fits the point it is at. */
  predicate VerdictKept(a: Attempt) {
    ProfileOf(a.at).commit && VerdictFits(a, ProfileOf(a.at).verdict)
  }

  /** Where memory has the manifest of a commit, point by point, and when its COMMITTED write has been. */
  predicate MemoryKept(x: Scene, id: string, wrote: bool) {
    match x.a.at
    case Moving(Enter, Read) => true
    case Moving(Enter, _) => Remembers(x, id, Committing)
    case Moving(Settle, Look(from)) => from == Committing && Remembers(x, id, Committed)
    case Moving(Settle, CasFrom(from)) => from == Committing && Remembers(x, id, Committed)
    case Moving(Settle, CasAbsent(_)) => false
    case Moving(Settle, Audit) => Remembers(x, id, Committed) && wrote
    case Moving(Settle, Read) => Remembers(x, id, Committing)
    case Done => (x.a.succeeded || x.a.replayed) && Remembers(x, id, Committed) ==> wrote
    case _ => ProfileAt(x.a.at).entered && !x.a.at.Moving? && !x.a.at.Thrown? ==> Remembers(x, id, Committing)
  }

  predicate OnTrack(x: Scene, wrote: bool) {
    x.a.job.Commit? && VerdictKept(x.a) && MemoryKept(x, x.a.job.manifest.id, wrote)
  }

  // ---------- the transitions ----------

  lemma ReadKeeps(x: Scene, fault: Fault, wrote: bool)
    requires x.a.at.Moving? && x.a.at.phase.Read? && OnTrack(x, wrote)
    ensures OnTrack(Step(x, fault), wrote)
  {
    ReadStep(x, x.a.at.goal, fault);
  }

  lemma LookKeeps(x: Scene, fault: Fault, wrote: bool)
    requires x.a.at.Moving? && x.a.at.phase.Look? && OnTrack(x, wrote)
    ensures OnTrack(Step(x, fault), wrote)
  {
    LookStep(x, x.a.at.goal, x.a.at.phase.from, fault);
  }

  lemma InsertKeeps(x: Scene, fault: Fault, wrote: bool)
    requires x.a.at.Moving? && x.a.at.phase.CasAbsent? && OnTrack(x, wrote)
    ensures OnTrack(Step(x, fault), wrote)
  {
    InsertStep(x, x.a.at.goal, x.a.at.phase.from, fault);
  }

  lemma ReplaceKeeps(x: Scene, fault: Fault, wrote: bool)
    requires x.a.at.Moving? && x.a.at.phase.CasFrom? && OnTrack(x, wrote)
    ensures var y, id := Step(x, fault), x.a.job.manifest.id;
            var now := Stored(x.shared.lifecycle, id) == Committing && Stored(y.shared.lifecycle, id) == Committed;
            OnTrack(y, wrote || now)
  {
    var goal, from := x.a.at.goal, x.a.at.phase.from;
    ReplaceStep(x, goal, from, fault);
    PutBackKeeps(x, goal, from, wrote);
    if Stored(x.shared.lifecycle, x.a.job.manifest.id) == from {
      match fault
      case Fine => StoredKeeps(x, goal, from, wrote);
      case Late =>
        LostKeeps(x, goal, from, wrote);
        WroteIfSo(Writing(x, goal, from, Late), wrote);
      case Raises =>
    }
  }

  lemma WroteIfSo(x: Scene, wrote: bool)
    ensures OnTrack(x, wrote) ==> OnTrack(x, true)
  {
  }

  lemma PutBackKeeps(x: Scene, goal: Goal, from: State, wrote: bool)
    requires x.a.at == Moving(goal, CasFrom(from)) && OnTrack(x, wrote)
    ensures OnTrack(Goes(x, Raised(goal)).(records := x.records[x.a.job.manifest.id := from]), wrote)
  {
  }

  lemma StoredKeeps(x: Scene, goal: Goal, from: State, wrote: bool)
    requires x.a.at == Moving(goal, CasFrom(from)) && OnTrack(x, wrote)
    requires Stored(x.shared.lifecycle, x.a.job.manifest.id) == from
    ensures OnTrack(Writing(x, goal, from, Fine),
                    wrote || (from == Committing && Target(x.a.job, goal) == Committed))
  {
  }

  lemma LostKeeps(x: Scene, goal: Goal, from: State, wrote: bool)
    requires x.a.at == Moving(goal, CasFrom(from)) && OnTrack(x, wrote)
    ensures OnTrack(Writing(x, goal, from, Late), wrote)
  {
  }

  lemma AuditKeeps(x: Scene, fault: Fault, wrote: bool)
    requires x.a.at.Moving? && x.a.at.phase.Audit? && OnTrack(x, wrote)
    ensures OnTrack(Step(x, fault), wrote)
  {
    AuditStep(x, x.a.at.goal, fault);
  }

  // ---------- the other points ----------

  lemma HandledKeeps(x: Scene, fault: Fault, wrote: bool)
    requires !x.a.at.Moving? && OnTrack(x, wrote) && Handled(x.a.at)
    ensures OnTrack(Step(x, fault), wrote)
  {
  }

  /** No plan touches memory. */
  lemma PlanLeavesMemory(x: Scene, fault: Fault)
    requires x.a.job.Commit? && !x.a.at.Moving? && !Handled(x.a.at)
    ensures Step(x, fault).records == x.records && Step(x, fault).a.job == x.a.job
  {
  }

  lemma PlanKeepsVerdict(x: Scene)
    requires x.a.job.Commit? && !x.a.at.Moving? && !Handled(x.a.at) && VerdictKept(x.a)
    ensures VerdictKept(AttemptAfter(x.a, CommitMove(x, x.a.job.manifest, x.a.job.grant)))
  {
    if Releasing(x.a.at) {
      ReleaseKeepsVerdict(x);
    } else if ProfileAt(x.a.at).verdict != Undecided {
      ClosingKeepsVerdict(x);
    }
  }

  lemma ClosingKeepsVerdict(x: Scene)
    requires x.a.job.Commit? && !x.a.at.Moving? && !Handled(x.a.at) && !Releasing(x.a.at) && VerdictKept(x.a)
    requires ProfileAt(x.a.at).verdict != Undecided
    ensures VerdictKept(AttemptAfter(x.a, CommitMove(x, x.a.job.manifest, x.a.job.grant)))
  {
  }

  lemma ReleaseKeepsVerdict(x: Scene)
    requires Releasing(x.a.at) && VerdictKept(x.a)
    ensures VerdictKept(AttemptAfter(x.a, ReleaseMove(x, AfterRelease(x.a.at))))
  {
  }

  /** A plan leads from entered points to entered points, or out. */
  lemma PlanKeepsPlace(x: Scene)
    requires x.a.job.Commit? && !x.a.at.Moving? && !Handled(x.a.at) && !x.a.at.Done? && !x.a.at.Thrown?
    ensures var next := CommitMove(x, x.a.job.manifest, x.a.job.grant).next;
            && !next.Thrown?
            && (next.Moving? ==>
                  next.phase.Read? && (next.goal == Enter || next.goal == Settle || next.goal == Fail))
            && (ProfileAt(next).entered && !(next.Moving? && next.goal == Enter) ==> ProfileAt(x.a.at).entered)
            && (next.Done? ==> ProfileAt(x.a.at).verdict == Undecided)
  {
  }

  lemma ThrownKeepsVerdict(a: Attempt)
    requires VerdictKept(a) && !a.at.Thrown?
    ensures VerdictKept(a.(at := Thrown(a.at)))
  {
  }

  lemma PlanKeeps(x: Scene, fault: Fault, wrote: bool)
    requires !x.a.at.Moving? && OnTrack(x, wrote) && !Handled(x.a.at) && !x.a.at.Done? && !x.a.at.Thrown?
    ensures OnTrack(Step(x, fault), wrote)
  {
    var m := CommitMove(x, x.a.job.manifest, x.a.job.grant);
    PlanLeavesMemory(x, fault);
    PlanKeepsVerdict(x);
    PlanKeepsPlace(x);
    ThrownKeepsVerdict(x.a);
    ThrownKeepsVerdict(AttemptAfter(x.a, m));
    InterruptedMoves(x, fault, m);
  }

  /** Where a plan that may be interrupted leads. */
  lemma InterruptedMoves(x: Scene, fault: Fault, m: Move)
    requires x.a.job.Commit? && !x.a.at.Moving? && !Handled(x.a.at)
    requires m == CommitMove(x, x.a.job.manifest, x.a.job.grant)
    ensures var a, b := Step(x, fault).a, AttemptAfter(x.a, m);
            a == b || a == b.(at := Thrown(b.at)) || a == x.a.(at := Thrown(x.a.at))
  {
  }

  // ---------- over a whole call ----------

  lemma StepOnTrack(x: Scene, fault: Fault, wrote: bool)
    requires OnTrack(x, wrote)
    ensures var y, id := Step(x, fault), x.a.job.manifest.id;
            var now := Stored(x.shared.lifecycle, id) == Committing && Stored(y.shared.lifecycle, id) == Committed;
            OnTrack(y, wrote || now) && y.a.job == x.a.job
  {
    if x.a.at.Moving? {
      TransitionOnTrack(x, fault, wrote);
    } else if Handled(x.a.at) {
      HandledKeeps(x, fault, wrote);
    } else if !x.a.at.Done? && !x.a.at.Thrown? {
      PlanKeeps(x, fault, wrote);
    }
    WroteIfSo(Step(x, fault), wrote);
  }

  lemma TransitionOnTrack(x: Scene, fault: Fault, wrote: bool)
    requires OnTrack(x, wrote) && x.a.at.Moving?
    ensures var y, id := Step(x, fault), x.a.job.manifest.id;
            var now := Stored(x.shared.lifecycle, id) == Committing && Stored(y.shared.lifecycle, id) == Committed;
            OnTrack(y, wrote) || (now && OnTrack(y, true))
  {
    match x.a.at.phase
    case Read => ReadKeeps(x, fault, wrote);
    case Look(_) => LookKeeps(x, fault, wrote);
    case CasAbsent(_) => InsertKeeps(x, fault, wrote);
    case CasFrom(_) => ReplaceKeeps(x, fault, wrote);
    case Audit => AuditKeeps(x, fault, wrote);
  }

  lemma {:induction false} CallStaysOnTrack(scenes: seq<Scene>, trace: seq<Seen>, e: nat, m: Manifest, g: Grant)
    requires Passed(scenes, trace) && scenes[0].a == Launch(e, Commit(m, g))
    ensures scenes[|trace|].a.job == Commit(m, g)
    ensures OnTrack(scenes[|trace|], StoredByCall(scenes, trace, m.id, Committing, Committed))
    decreases |trace|
  {
    if trace != [] {
      var n := |trace| - 1;
      var front, earlier := scenes[..n + 1], trace[..n];
      CallStaysOnTrack(front, earlier, e, m, g);
      var x := Scene(trace[n].found, scenes[n].records, scenes[n].a);
      var wrote := StoredByCall(front, earlier, m.id, Committing, Committed);
      FoundKeeps(scenes[n], trace[n].found, wrote);
      StepOnTrack(x, trace[n].fault, wrote);
      assert scenes[n + 1] == Step(x, trace[n].fault);
      WroteGrows(scenes, trace, m.id);
      WroteIfSo(scenes[n + 1], wrote);
    }
  }

  /** What others do to the stores does not touch the call or the memory of its engine. */
  lemma FoundKeeps(x: Scene, found: Shared, wrote: bool)
    requires OnTrack(x, wrote)
    ensures OnTrack(Scene(found, x.records, x.a), wrote)
  {
  }

  lemma WroteGrows(scenes: seq<Scene>, trace: seq<Seen>, id: string)
    requires |scenes| == |trace| + 1 && trace != []
    ensures var n := |trace| - 1;
            StoredByCall(scenes, trace, id, Committing, Committed) <==>
              || StoredByCall(scenes[..n + 1], trace[..n], id, Committing, Committed)
              || WroteAt(scenes, trace, n, id, Committing, Committed)
  {
    var n := |trace| - 1;
    var front, earlier := scenes[..n + 1], trace[..n];
    if k :| 0 <= k < n && WroteAt(front, earlier, k, id, Committing, Committed) {
      assert WroteAt(scenes, trace, k, id, Committing, Committed);
    }
    if k :| 0 <= k < |trace| && k != n && WroteAt(scenes, trace, k, id, Committing, Committed) {
      assert WroteAt(front, earlier, k, id, Committing, Committed);
    }
  }

  /** A commit of an engine that remembers its manifest as COMMITTED after a success or a replay has itself
      moved the stored row from COMMITTING to COMMITTED, whatever others do to the stores. */
  lemma RememberedIsStored(scenes: seq<Scene>, trace: seq<Seen>, e: nat, m: Manifest, g: Grant)
    requires Passed(scenes, trace) && scenes[0].a == Launch(e, Commit(m, g))
    requires var x := scenes[|trace|]; x.a.at.Done? && (x.a.succeeded || x.a.replayed) && Remembers(x, m.id, Committed)
    ensures StoredByCall(scenes, trace, m.id, Committing, Committed)
  {
    CallStaysOnTrack(scenes, trace, e, m, g);
  }
}
