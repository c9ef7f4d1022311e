/** The outbox closes a key: every entry belongs to a call that has moved its manifest to COMMITTING
    and is past the outbox, so no other call is ever let through for that key. */
module CommitOutbox {
  import opened Wrappers
  import opened Faults
  import opened Lifecycle
  import opened CommitProtocol
  import opened CommitInvariants
  import opened CommitRuns
  import opened CommitTheorems
  import GrantStore
  import Outbox
  import Pay = PaymentSimulator

  // ---------- who recorded an entry ----------

  /** The points before the call has asked the outbox. */
  predicate BeforeOutbox(at: Point) {
    at.Checking? || at.ReservingBudget? || at.ReservingGrant? || at.RefusedGrant? || (at.Moving? && at.goal == Enter) ||
    at.RecordingIntent?
  }

  /** The call has moved the manifest of the entry to COMMITTING and has asked the outbox. */
  predicate Owns(a: Attempt, key: string, manifest: Manifest) {
    a.job.Commit? && a.job.manifest == manifest && manifest.key == key && a.entered && !BeforeOutbox(a.at)
  }

  ghost predicate HasOwner(w: World, key: string, manifest: Manifest) {
    exists j :: 0 <= j < |w.attempts| && Owns(w.attempts[j], key, manifest)
  }

  ghost predicate Owned(w: World) {
    w.shared.outbox.Some? ==>
      forall key :: key in w.shared.outbox.value ==> HasOwner(w, key, w.shared.outbox.value[key].manifest)
  }

  lemma TransitionStaysPast(x: Scene, fault: Fault)
    requires x.a.at.Moving? && !BeforeOutbox(x.a.at)
    ensures !BeforeOutbox(NextMove(x, fault).next)
  {
  }

  lemma PlanStaysPast(x: Scene)
    requires x.a.job.Commit? && !x.a.at.Moving? && !Handled(x.a.at) && !BeforeOutbox(x.a.at)
    ensures !BeforeOutbox(CommitMove(x, x.a.job.manifest, x.a.job.grant).next)
  {
  }

  /** A call past the outbox stays past it. */
  lemma PastStays(x: Scene, fault: Fault)
    requires x.a.job.Commit? && !BeforeOutbox(x.a.at)
    ensures !BeforeOutbox(NextMove(x, fault).next)
  {
    if x.a.at.Moving? {
      TransitionStaysPast(x, fault);
    } else if !Handled(x.a.at) {
      PlanStaysPast(x);
    }
  }

  lemma OwnerStays(w: World, act: Action, key: string, manifest: Manifest)
    requires HasOwner(w, key, manifest)
    ensures HasOwner(Perform(w, act), key, manifest)
  {
    var j :| 0 <= j < |w.attempts| && Owns(w.attempts[j], key, manifest);
    if act.Advance? && act.i == j {
      PastStays(SceneOf(w, j), act.fault);
    }
    assert Owns(Perform(w, act).attempts[j], key, manifest);
  }

  /** An operation adds an entry only by recording an intent, and never changes whose entry it is. */
  lemma OpKeepsEntries(t: Outbox.Table<Manifest>, op: Op, key: string)
    requires key in OutboxAfter(t, op)
    ensures key in t ==> OutboxAfter(t, op)[key].manifest == t[key].manifest
    ensures key !in t ==> op.Intend? && op.key == key && OutboxAfter(t, op)[key].manifest == op.manifest
  {
  }

  /** Only a call that stands at the outbox records an intent, and then it is past it. */
  lemma IntentIsOwned(x: Scene, fault: Fault)
    requires Ready(x) && NextMove(x, fault).op.Intend?
    ensures var op := NextMove(x, fault).op;
            Owns(Step(x, fault).a, op.key, op.manifest)
  {
    if x.a.job.Commit? && !x.a.at.Moving? && !Handled(x.a.at) {
      PlanRecordsNothing(x);
    }
  }

  lemma PlanRecordsNothing(x: Scene)
    requires x.a.job.Commit? && !x.a.at.Moving? && !Handled(x.a.at)
    ensures !CommitMove(x, x.a.job.manifest, x.a.job.grant).op.Intend?
  {
  }

  lemma AdvanceKeepsOwned(w: World, i: nat, fault: Fault)
    requires Inv(w) && Owned(w) && i < |w.attempts|
    ensures Owned(Perform(w, Advance(i, fault)))
  {
    var v := Perform(w, Advance(i, fault));
    var x := SceneOf(w, i);
    var op := NextMove(x, fault).op;
    SceneReady(w, i);
    if w.shared.outbox.Some? {
      forall key | key in v.shared.outbox.value
        ensures HasOwner(v, key, v.shared.outbox.value[key].manifest)
      {
        OpKeepsEntries(w.shared.outbox.value, op, key);
        if key in w.shared.outbox.value {
          OwnerStays(w, Advance(i, fault), key, w.shared.outbox.value[key].manifest);
        } else {
          IntentIsOwned(x, fault);
          assert Owns(v.attempts[i], key, op.manifest);
        }
      }
    }
  }

  lemma OutsideKeepsOutbox(w: World, act: Action)
    requires !act.Advance?
    ensures Perform(w, act).shared.outbox == w.shared.outbox
  {
  }

  lemma PerformKeepsOwned(w: World, act: Action)
    requires Inv(w) && Owned(w)
    ensures Owned(Perform(w, act))
  {
    if act.Advance? {
      if act.i < |w.attempts| {
        AdvanceKeepsOwned(w, act.i, act.fault);
      }
    } else {
      OutsideKeepsOutbox(w, act);
      if w.shared.outbox.Some? {
        forall key | key in w.shared.outbox.value
          ensures HasOwner(Perform(w, act), key, w.shared.outbox.value[key].manifest)
        {
          OwnerStays(w, act, key, w.shared.outbox.value[key].manifest);
        }
      }
    }
  }

  lemma {:induction false} RunKeepsOwned(w: World, acts: seq<Action>)
    requires Inv(w) && Owned(w)
    ensures Owned(RunFrom(w, acts))
    decreases |acts|
  {
    if acts != [] {
      RunKeepsOwned(w, acts[..|acts| - 1]);
      RunKeeps(w, acts[..|acts| - 1]);
      PerformKeepsOwned(RunFrom(w, acts[..|acts| - 1]), acts[|acts| - 1]);
    }
  }

  /** In every run, every entry of the outbox was recorded by a call that entered its manifest and is
      past the outbox. */
  lemma EveryEntryHasItsCall(withOutbox: bool, acts: seq<Action>)
    ensures Inv(Run(withOutbox, acts)) && Owned(Run(withOutbox, acts))
  {
    InitialHolds(withOutbox);
    Reachable(withOutbox, acts);
    RunKeepsOwned(Initial(withOutbox), acts);
  }

  // ---------- a key on record is closed ----------

  predicate OnRecord(s: Shared, key: string) {
    s.outbox.Some? && key in s.outbox.value
  }

  /** The outbox refuses every call that stands before it for a key on record. */
  lemma OutboxRefuses(w: World, i: nat)
    requires Inv(w) && Owned(w) && i < |w.attempts|
    requires w.attempts[i].at.RecordingIntent? && w.attempts[i].job.Commit?
             && OnRecord(w.shared, w.attempts[i].job.manifest.key)
    ensures var a := w.attempts[i];
            Outbox.RecordPending(w.shared.outbox.value, a.job.manifest.key, a.job.grant.id, a.job.manifest).None?
  {
    var a := w.attempts[i];
    var entry := w.shared.outbox.value[a.job.manifest.key];
    EnteredAtOutbox(w.shared, a);
    assert HasOwner(w, a.job.manifest.key, entry.manifest);
    var j :| 0 <= j < |w.attempts| && Owns(w.attempts[j], a.job.manifest.key, entry.manifest);
    CallsEnterApart(w.attempts, i, j);
    assert entry.manifest.id != a.job.manifest.id;
  }

  lemma EnteredAtOutbox(s: Shared, a: Attempt)
    requires AttemptFits(s, a) && a.at.RecordingIntent?
    ensures a.entered
  {
  }

  /** The call has not been let past the outbox: it is before it, on its way out, or out. */
  predicate ShutOut(a: Attempt) {
    && !a.succeeded && !a.replayed
    && (BeforeOutbox(a.at) || a.at.UndoingGrant? || a.at.UndoingBudget? || a.at.Done? || a.at.Thrown?)
  }

  lemma TransitionStaysOut(x: Scene, fault: Fault)
    requires x.a.job.Commit? && x.a.at.Moving? && ShutOut(x.a)
    ensures ShutOut(Step(x, fault).a)
  {
  }

  lemma PlanStaysOut(x: Scene)
    requires x.a.job.Commit? && !x.a.at.Moving? && !Handled(x.a.at) && ShutOut(x.a) && Ready(x)
    ensures var m := CommitMove(x, x.a.job.manifest, x.a.job.grant);
            ShutOut(x.a.(at := m.next)) && !m.op.Pass? && !m.op.Adopt? && !m.next.Stuck?
  {
    if !x.a.at.Done? && !x.a.at.Thrown? {
      PlanSound(x);
    }
  }

  lemma ShutOutStays(x: Scene, fault: Fault)
    requires x.a.job.Commit? && ShutOut(x.a) && Ready(x)
    requires x.a.at.RecordingIntent? ==>
               x.shared.outbox.Some?
               && Outbox.RecordPending(x.shared.outbox.value, x.a.job.manifest.key, x.a.job.grant.id,
                                       x.a.job.manifest).None?
    ensures ShutOut(Step(x, fault).a)
  {
    if x.a.at.Moving? {
      TransitionStaysOut(x, fault);
    } else if !Handled(x.a.at) {
      PlanStaysOut(x);
    }
  }

  lemma EntriesStayOnRecord(s: Shared, op: Op, key: string)
    requires OnRecord(s, key)
    ensures OnRecord(SharedAfter(s, op), key)
  {
  }

  lemma ActionKeepsShutOut(w: World, act: Action, key: string, i: nat)
    requires Inv(w) && Owned(w) && OnRecord(w.shared, key)
    requires i < |w.attempts| ==> ForKey(w.attempts[i], key) ==> ShutOut(w.attempts[i])
    ensures OnRecord(Perform(w, act).shared, key)
    ensures i < |Perform(w, act).attempts| ==> ForKey(Perform(w, act).attempts[i], key) ==>
              ShutOut(Perform(w, act).attempts[i])
  {
    if !act.Advance? {
      OutsideKeepsOutbox(w, act);
    } else if act.i < |w.attempts| {
      EntriesStayOnRecord(w.shared, NextMove(SceneOf(w, act.i), act.fault).op, key);
      if act.i == i && ForKey(w.attempts[i], key) {
        SceneReady(w, i);
        if w.attempts[i].at.RecordingIntent? {
          OutboxRefuses(w, i);
        }
        ShutOutStays(SceneOf(w, i), act.fault);
      }
    }
  }

  lemma {:induction false} StaysShutOut(w: World, acts: seq<Action>, key: string, i: nat)
    requires Inv(w) && Owned(w) && OnRecord(w.shared, key)
    requires i < |w.attempts| ==> ForKey(w.attempts[i], key) ==> ShutOut(w.attempts[i])
    ensures OnRecord(RunFrom(w, acts).shared, key)
    ensures i < |RunFrom(w, acts).attempts| ==> ForKey(RunFrom(w, acts).attempts[i], key) ==>
              ShutOut(RunFrom(w, acts).attempts[i])
    decreases |acts|
  {
    if acts != [] {
      var before := acts[..|acts| - 1];
      StaysShutOut(w, before, key, i);
      RunKeeps(w, before);
      RunKeepsOwned(w, before);
      ActionKeepsShutOut(RunFrom(w, before), acts[|acts| - 1], key, i);
    }
  }

  lemma UndecidedIsShutOut(s: Shared, a: Attempt)
    requires AttemptFits(s, a) && BeforeOutbox(a.at)
    ensures ShutOut(a)
  {
  }

  /** With an outbox, once any intent for a key is on record, pending, confirmed or abandoned, no call
      for that key that is not already past the outbox, and none that starts later, is ever replayed or
      carried out: it never reaches the adapter, and the adapter's outcome is never adopted. */
  lemma KeyOnRecordIsClosed(before: seq<Action>, after: seq<Action>, key: string, i: nat)
    requires OnRecord(Run(true, before).shared, key)
    requires i < |Run(true, before).attempts| ==> BeforeOutbox(Run(true, before).attempts[i].at)
    requires i < |Run(true, before + after).attempts| && ForKey(Run(true, before + after).attempts[i], key)
    ensures var a := Run(true, before + after).attempts[i];
            !a.replayed && !a.succeeded && !a.at.Validating? && !a.at.Calling?
    ensures OnRecord(Run(true, before + after).shared, key)
  {
    var w := Run(true, before);
    EveryEntryHasItsCall(true, before);
    RunSplits(Initial(true), before, after);
    if i < |w.attempts| {
      UndecidedIsShutOut(w.shared, w.attempts[i]);
    }
    StaysShutOut(w, after, key, i);
  }

  // ---------- the abandoned case ----------

  predicate AbandonedKey(s: Shared, key: string) {
    OnRecord(s, key) && s.outbox.value[key].status == Outbox.Abandoned
  }

  /** In particular a key whose intent was abandoned is closed, even when recovery has found the payment
      settled; and it stays abandoned. */
  lemma AbandonedKeyIsNeverReplayed(before: seq<Action>, after: seq<Action>, key: string, i: nat)
    requires AbandonedKey(Run(true, before).shared, key)
    requires |Run(true, before).attempts| <= i < |Run(true, before + after).attempts|
    requires ForKey(Run(true, before + after).attempts[i], key)
    ensures !Run(true, before + after).attempts[i].replayed && !Run(true, before + after).attempts[i].succeeded
    ensures AbandonedKey(Run(true, before + after).shared, key)
  {
    KeyOnRecordIsClosed(before, after, key, i);
    Reachable(true, before);
    RunSplits(Initial(true), before, after);
    RunLater(Run(true, before), after);
  }

  // ---------- what a served call leaves on the books ----------

  predicate ConfirmedKey(s: Shared, key: string) {
    s.outbox.Some? ==> key in s.outbox.value && s.outbox.value[key].status == Outbox.Confirmed
  }

  /** Once a call that succeeded, or was replayed, has confirmed its intent the intent stays confirmed, and
      once it has spent its use the outcome of its key stays on record. */
  predicate Booked(s: Shared, a: Attempt) {
    a.job.Commit? && (a.succeeded || a.replayed) ==>
      var spent := a.at.Done? || (a.at.Moving? && a.at.goal == Settle);
      && (a.at.ReplayGrant? || a.at.SpendingGrant? || spent ==> ConfirmedKey(s, a.job.manifest.key))
      && (spent ==> a.job.manifest.key in s.grants.outcomes)
  }

  lemma OpKeepsBooked(s: Shared, op: Op, b: Attempt)
    requires Booked(s, b)
    ensures Booked(SharedAfter(s, op), b)
  {
    OpKeepsOutcomes(s.grants, op);
    if s.outbox.Some? {
      OpKeepsConfirmed(s.outbox.value, op);
    }
  }

  lemma OpKeepsOutcomes(g: GrantStore.Grants, op: Op)
    ensures g.outcomes.Keys <= GrantsAfter(g, op).outcomes.Keys
  {
  }

  lemma OpKeepsConfirmed(t: Outbox.Table<Manifest>, op: Op)
    ensures forall key :: key in t && t[key].status == Outbox.Confirmed ==>
              key in OutboxAfter(t, op) && OutboxAfter(t, op)[key].status == Outbox.Confirmed
  {
  }

  /** A step of the call itself books what it claims. */
  lemma StepBooks(x: Scene, fault: Fault)
    requires Ready(x) && x.a.job.Commit? && Booked(x.shared, x.a)
    ensures Booked(Step(x, fault).shared, Step(x, fault).a)
  {
    OpKeepsBooked(x.shared, NextMove(x, fault).op, x.a);
    MoveSound(x, fault);
    if x.a.at.Moving? {
      TransitionBooks(x, fault);
    } else if Handled(x.a.at) {
      HandledBooks(x, fault);
    } else {
      PlanBooks(x, fault);
    }
  }

  lemma TransitionBooks(x: Scene, fault: Fault)
    requires x.a.job.Commit? && x.a.at.Moving? && ShapeFits(x.a) && Booked(x.shared, x.a)
    requires Booked(Step(x, fault).shared, x.a)
    ensures Booked(Step(x, fault).shared, Step(x, fault).a)
  {
  }

  lemma HandledBooks(x: Scene, fault: Fault)
    requires x.a.job.Commit? && Handled(x.a.at) && ShapeFits(x.a)
    ensures Booked(Step(x, fault).shared, Step(x, fault).a)
  {
  }

  lemma PlanBooks(x: Scene, fault: Fault)
    requires x.a.job.Commit? && !x.a.at.Moving? && !Handled(x.a.at) && ShapeFits(x.a) && Booked(x.shared, x.a)
    requires Booked(Step(x, fault).shared, x.a) && ShapeFits(Step(x, fault).a)
    ensures Booked(Step(x, fault).shared, Step(x, fault).a)
  {
    if x.a.succeeded || x.a.replayed {
      ServedBooks(x, fault);
    } else {
      UnservedBooks(x, fault);
    }
  }

  lemma ServedBooks(x: Scene, fault: Fault)
    requires x.a.job.Commit? && !x.a.at.Moving? && !Handled(x.a.at) && ShapeFits(x.a) && Booked(x.shared, x.a)
    requires Booked(Step(x, fault).shared, x.a) && (x.a.succeeded || x.a.replayed)
    ensures Booked(Step(x, fault).shared, Step(x, fault).a)
  {
    if x.a.at.Done? || x.a.at.Thrown? {
      assert Step(x, fault).a.at == x.a.at;
    } else {
      ServedOnlyCloses(x.a);
      ClosingBooks(x, fault);
    }
  }

  lemma ServedOnlyCloses(a: Attempt)
    requires a.job.Commit? && !a.at.Moving? && !Handled(a.at) && !a.at.Done? && !a.at.Thrown?
    requires ShapeFits(a) && (a.succeeded || a.replayed)
    ensures a.at.ReplayBudget? || a.at.ReplayIntent? || a.at.ReplayGrant? || a.at.SpendingBudget?
            || a.at.ConfirmingIntent? || a.at.SpendingGrant?
  {
  }

  lemma ClosingBooks(x: Scene, fault: Fault)
    requires x.a.job.Commit? && Booked(x.shared, x.a) && Booked(Step(x, fault).shared, x.a)
    requires x.a.at.ReplayBudget? || x.a.at.ReplayIntent? || x.a.at.ReplayGrant? || x.a.at.SpendingBudget?
             || x.a.at.ConfirmingIntent? || x.a.at.SpendingGrant?
    ensures Booked(Step(x, fault).shared, Step(x, fault).a)
  {
  }

  lemma UnservedBooks(x: Scene, fault: Fault)
    requires x.a.job.Commit? && !x.a.at.Moving? && !Handled(x.a.at) && !x.a.succeeded && !x.a.replayed
    ensures Booked(Step(x, fault).shared, Step(x, fault).a)
  {
  }

  ghost predicate AllBooked(w: World) {
    forall j :: 0 <= j < |w.attempts| ==> Booked(w.shared, w.attempts[j])
  }

  lemma AdvanceKeepsBooked(w: World, i: nat, fault: Fault)
    requires Inv(w) && AllBooked(w) && i < |w.attempts|
    ensures AllBooked(Perform(w, Advance(i, fault)))
  {
    var x, v := SceneOf(w, i), Perform(w, Advance(i, fault));
    SceneReady(w, i);
    if x.a.job.Commit? {
      StepBooks(x, fault);
    }
    forall j | 0 <= j < |v.attempts|
      ensures Booked(v.shared, v.attempts[j])
    {
      if j != i {
        OpKeepsBooked(w.shared, NextMove(x, fault).op, w.attempts[j]);
      }
    }
  }

  lemma OutsideKeepsBooked(s: Shared, act: Action, b: Attempt)
    requires Booked(s, b)
    ensures Booked(Outside(s, act), b)
  {
  }

  lemma PerformKeepsBooked(w: World, act: Action)
    requires Inv(w) && AllBooked(w)
    ensures AllBooked(Perform(w, act))
  {
    if act.Advance? {
      if act.i < |w.attempts| {
        AdvanceKeepsBooked(w, act.i, act.fault);
      }
    } else if !act.Start? {
      forall j | 0 <= j < |w.attempts|
        ensures Booked(Outside(w.shared, act), w.attempts[j])
      {
        OutsideKeepsBooked(w.shared, act, w.attempts[j]);
      }
    }
  }

  lemma {:induction false} RunKeepsBooked(w: World, acts: seq<Action>)
    requires Inv(w) && AllBooked(w)
    ensures AllBooked(RunFrom(w, acts))
    decreases |acts|
  {
    if acts != [] {
      RunKeepsBooked(w, acts[..|acts| - 1]);
      RunKeeps(w, acts[..|acts| - 1]);
      PerformKeepsBooked(RunFrom(w, acts[..|acts| - 1]), acts[|acts| - 1]);
    }
  }

  /** In every run, for a call that has come to its end in order after a success or a replay: the outcome of
      its key is on record, so that no later commit of the key reaches the adapter, and with an outbox its
      intent is confirmed, for good. */
  lemma ServedCallIsBooked(withOutbox: bool, acts: seq<Action>, i: nat)
    requires i < |Run(withOutbox, acts).attempts|
    requires var a := Run(withOutbox, acts).attempts[i]; a.job.Commit? && a.at.Done? && (a.succeeded || a.replayed)
    ensures var s, key := Run(withOutbox, acts).shared, Run(withOutbox, acts).attempts[i].job.manifest.key;
            && key in s.grants.outcomes
            && (s.outbox.Some? ==> key in s.outbox.value && s.outbox.value[key].status == Outbox.Confirmed)
  {
    InitialHolds(withOutbox);
    RunKeepsBooked(Initial(withOutbox), acts);
  }

  // ---------- an outcome that is unknown ----------

  /** The call has given up without knowing what the adapter did, or is out. */
  predicate GaveUpUnsure(at: Point) {
    || at == FailingGrant(false) || at == FailingBudget(false) || (at.Moving? && at.goal == Fail)
    || at.Done? || at.Thrown?
  }

  lemma UnsureStays(x: Scene, fault: Fault)
    requires x.a.job.Commit? && GaveUpUnsure(x.a.at) && Ready(x)
    ensures GaveUpUnsure(Step(x, fault).a.at) && !NextMove(x, fault).op.Abandon?
  {
    if x.a.at.Moving? {
      UnsureMoves(x, fault);
    } else if x.a.at.FailingGrant? || x.a.at.FailingBudget? {
      MoveSound(x, fault);
      UnsureUnwinds(x, fault);
    }
  }

  lemma UnsureMoves(x: Scene, fault: Fault)
    requires x.a.job.Commit? && x.a.at.Moving? && x.a.at.goal == Fail
    ensures GaveUpUnsure(Step(x, fault).a.at) && !NextMove(x, fault).op.Abandon?
  {
  }

  lemma UnsureUnwinds(x: Scene, fault: Fault)
    requires x.a.job.Commit? && (x.a.at == FailingGrant(false) || x.a.at == FailingBudget(false))
    requires !Step(x, fault).a.at.Stuck?
    ensures GaveUpUnsure(Step(x, fault).a.at) && !NextMove(x, fault).op.Abandon?
  {
  }

  /** An adapter that raises, before its effect or after it, leaves the call unsure. */
  lemma RaiseLeavesUnsure(x: Scene, fault: Fault)
    requires x.a.job.Commit? && x.a.at.Calling? && !fault.Fine? && Ready(x)
    ensures Step(x, fault).a.at == FailingGrant(false)
    ensures Step(x, fault).shared.outbox == x.shared.outbox && Step(x, fault).a.entered
  {
  }

  /** The intent of a call that gave up unsure is on record and not abandoned. */
  predicate StillOpen(w: World, i: nat) {
    i < |w.attempts| &&
    var a := w.attempts[i];
    && a.job.Commit? && a.entered && GaveUpUnsure(a.at) && w.shared.outbox.Some?
    && a.job.manifest.key in w.shared.outbox.value
    && w.shared.outbox.value[a.job.manifest.key].manifest == a.job.manifest
    && w.shared.outbox.value[a.job.manifest.key].status != Outbox.Abandoned
  }

  /** Nobody but the call itself could abandon it. */
  lemma OthersDoNotAbandon(w: World, i: nat, j: nat, fault: Fault)
    requires Inv(w) && StillOpen(w, i) && j < |w.attempts|
    ensures var op := NextMove(SceneOf(w, j), fault).op;
            op.Abandon? ==> op.key != w.attempts[i].job.manifest.key
  {
    var op := NextMove(SceneOf(w, j), fault).op;
    SceneReady(w, j);
    if j == i {
      UnsureStays(SceneOf(w, i), fault);
    } else if op.Abandon? {
      MoveSound(SceneOf(w, j), fault);
      AbandonerStands(w.shared, w.attempts[j]);
      CallsEnterApart(w.attempts, i, j);
    }
  }

  lemma OnlyAbandonAbandons(t: Outbox.Table<Manifest>, op: Op, key: string)
    requires key in t && t[key].status != Outbox.Abandoned && (op.Abandon? ==> op.key != key)
    ensures key in OutboxAfter(t, op) && OutboxAfter(t, op)[key].status != Outbox.Abandoned
    ensures OutboxAfter(t, op)[key].manifest == t[key].manifest
  {
  }

  lemma ActionKeepsOpen(w: World, act: Action, i: nat)
    requires Inv(w) && StillOpen(w, i)
    ensures StillOpen(Perform(w, act), i)
  {
    if !act.Advance? {
      OutsideKeepsOutbox(w, act);
    } else if act.i < |w.attempts| {
      var op := NextMove(SceneOf(w, act.i), act.fault).op;
      OthersDoNotAbandon(w, i, act.i, act.fault);
      OnlyAbandonAbandons(w.shared.outbox.value, op, w.attempts[i].job.manifest.key);
      if act.i == i {
        SceneReady(w, i);
        UnsureStays(SceneOf(w, i), act.fault);
      }
    }
  }

  lemma {:induction false} RunKeepsOpen(w: World, acts: seq<Action>, i: nat)
    requires Inv(w) && StillOpen(w, i)
    ensures StillOpen(RunFrom(w, acts), i)
    decreases |acts|
  {
    if acts != [] {
      RunKeepsOpen(w, acts[..|acts| - 1], i);
      RunKeeps(w, acts[..|acts| - 1]);
      ActionKeepsOpen(RunFrom(w, acts[..|acts| - 1]), acts[|acts| - 1], i);
    }
  }

  /** When the adapter raises, so that its outcome is unknown, the intent of the call is never abandoned, by
      anyone, in any continuation: it stays pending until recovery confirms it. */
  lemma UnknownOutcomeStaysOpen(before: seq<Action>, i: nat, fault: Fault, after: seq<Action>)
    requires i < |Run(true, before).attempts| && Run(true, before).attempts[i].at.Calling? && !fault.Fine?
    ensures var s, a := Run(true, before + [Advance(i, fault)] + after).shared, Run(true, before).attempts[i];
            && a.job.Commit? && s.outbox.Some? && a.job.manifest.key in s.outbox.value
            && s.outbox.value[a.job.manifest.key].manifest == a.job.manifest
            && s.outbox.value[a.job.manifest.key].status != Outbox.Abandoned
  {
    var w := Run(true, before);
    var v := Perform(w, Advance(i, fault));
    EveryEntryHasItsCall(true, before);
    OutboxThroughout(before);
    SceneReady(w, i);
    CallingIsPrepared(SceneOf(w, i));
    RaiseLeavesUnsure(SceneOf(w, i), fault);
    PerformKeeps(w, Advance(i, fault));
    assert (before + [Advance(i, fault)])[..|before|] == before;
    RunSplits(Initial(true), before + [Advance(i, fault)], after);
    RunKeepsOpen(v, after, i);
    RunLater(v, after);
  }

  lemma OutboxThroughout(acts: seq<Action>)
    ensures Run(true, acts).shared.outbox.Some?
  {
    InitialHolds(true);
    RunLater(Initial(true), acts);
  }
}
