/** Any number of journals over one backend. A record call takes two steps, reading the last event and
    appending, and the steps of all journals interleave arbitrarily. */
module AuditRuns {
  import opened Wrappers
  import opened Faults
  import opened AuditChain
  import opened AuditBackends

  /** The tips that journals have read and not yet used. */
  datatype World = World(backend: Backend, tips: map<nat, Option<Event>>)

  datatype Action =
    | ReadTip(journal: nat)
    | Append(journal: nat, content: Content, fault: Fault)

  /** Whether the append of this action is written; a medium that writes and then fails has written. */
  predicate Written(w: World, a: Action, hash: Hash) {
    a.Append? && a.journal in w.tips && !a.fault.Raises?
    && Accepts(w.backend, NextEvent(w.tips[a.journal], a.content, hash))
  }

  function Perform(w: World, a: Action, hash: Hash): World {
    match a
    case ReadTip(j) => w.(tips := w.tips[j := LastEvent(w.backend)])
    case Append(j, content, _) =>
      if Written(w, a, hash) then World(Appended(w.backend, NextEvent(w.tips[j], content, hash)), w.tips - {j})
      else w.(tips := w.tips - {j})
  }

  function Run(w: World, actions: seq<Action>, hash: Hash): World
    decreases |actions|
  {
    if actions == [] then w
    else Perform(Run(w, actions[..|actions| - 1], hash), actions[|actions| - 1], hash)
  }

  ghost predicate Shared(b: Backend) {
    !b.Memory?
  }

  /** Nothing stored, nothing read. */
  ghost predicate Initial(w: World) {
    Holds(w.backend, []) && w.tips == map[]
  }

  /** The tip is the last event of a prefix of the list. */
  ghost predicate OnceTip(tip: Option<Event>, events: seq<Event>) {
    exists k :: 0 <= k <= |events| && tip == LastOf(events[..k])
  }

  ghost predicate Inv(w: World, events: seq<Event>, hash: Hash) {
    && Shared(w.backend) && Holds(w.backend, events) && ChainValid(events, hash)
    && forall j :: j in w.tips ==> OnceTip(w.tips[j], events)
  }

  /** An event prepared on a once valid tip is let through exactly when the tip is still the last. */
  lemma AcceptedExactlyAtTip(b: Backend, events: seq<Event>, k: nat, content: Content, hash: Hash)
    requires Shared(b) && Holds(b, events) && ChainValid(events, hash) && k <= |events|
    ensures NextEvent(LastOf(events[..k]), content, hash).body.sequence == k + 1
    ensures Accepts(b, NextEvent(LastOf(events[..k]), content, hash)) <==> k == |events|
  {
    var e := NextEvent(LastOf(events[..k]), content, hash);
    assert k > 0 ==> Linked(events, k - 1, hash);
    if k < |events| {
      StaleIsRefused(b, events, e);
    } else {
      AppendedList(b, events, e);
    }
  }

  lemma TipsStayOnce(tip: Option<Event>, events: seq<Event>, e: Event)
    requires OnceTip(tip, events)
    ensures OnceTip(tip, events + [e])
  {
    var k :| 0 <= k <= |events| && tip == LastOf(events[..k]);
    assert (events + [e])[..k] == events[..k];
  }

  /** The list after an action: unchanged, or longer by the event written. */
  ghost function ListAfter(w: World, events: seq<Event>, a: Action, hash: Hash): seq<Event> {
    if Written(w, a, hash) then events + [NextEvent(w.tips[a.journal], a.content, hash)] else events
  }

  lemma WrittenKeeps(w: World, events: seq<Event>, a: Action, hash: Hash)
    requires Inv(w, events, hash) && Written(w, a, hash)
    ensures Inv(Perform(w, a, hash), ListAfter(w, events, a, hash), hash)
  {
    var tip := w.tips[a.journal];
    var e := NextEvent(tip, a.content, hash);
    var k :| 0 <= k <= |events| && tip == LastOf(events[..k]);
    AcceptedExactlyAtTip(w.backend, events, k, a.content, hash);
    assert events[..k] == events;
    AppendedList(w.backend, events, e);
    ExtensionIsValid(events, e, hash);
    forall j | j in w.tips
      ensures OnceTip(w.tips[j], events + [e])
    {
      TipsStayOnce(w.tips[j], events, e);
    }
  }

  lemma PerformKeeps(w: World, events: seq<Event>, a: Action, hash: Hash)
    requires Inv(w, events, hash)
    ensures Inv(Perform(w, a, hash), ListAfter(w, events, a, hash), hash)
  {
    if Written(w, a, hash) {
      WrittenKeeps(w, events, a, hash);
    } else if a.ReadTip? {
      HeldList(w.backend, events);
      assert events[..|events|] == events;
      assert OnceTip(LastEvent(w.backend), events);
    }
  }

  /** The list is only ever extended. */
  lemma {:induction false} RunKeeps(w: World, events: seq<Event>, actions: seq<Action>, hash: Hash)
    returns (later: seq<Event>)
    requires Inv(w, events, hash)
    ensures Inv(Run(w, actions, hash), later, hash) && events <= later
    decreases |actions|
  {
    if actions == [] {
      later := events;
    } else {
      var front, last := actions[..|actions| - 1], actions[|actions| - 1];
      var before := RunKeeps(w, events, front, hash);
      var middle := Run(w, front, hash);
      PerformKeeps(middle, before, last, hash);
      later := ListAfter(middle, before, last, hash);
    }
  }

  lemma InitialHolds(w: World, hash: Hash)
    requires Initial(w) && Shared(w.backend)
    ensures Inv(w, [], hash)
  {
  }

  // ---------- the results ----------

  /** At every moment of every run the stored list passes the full chain check. */
  lemma StoredChainIsAlwaysValid(w: World, actions: seq<Action>, hash: Hash)
    requires Initial(w) && Shared(w.backend)
    ensures ChainValid(AllEvents(Run(w, actions, hash).backend), hash)
  {
    InitialHolds(w, hash);
    var later := RunKeeps(w, [], actions, hash);
    HeldList(Run(w, actions, hash).backend, later);
  }

  ghost predicate NotBy(actions: seq<Action>, journal: nat) {
    forall i :: 0 <= i < |actions| ==> actions[i].journal != journal
  }

  lemma {:induction false} OthersLeaveTip(w: World, actions: seq<Action>, journal: nat, hash: Hash)
    requires NotBy(actions, journal) && journal in w.tips
    ensures journal in Run(w, actions, hash).tips && Run(w, actions, hash).tips[journal] == w.tips[journal]
    decreases |actions|
  {
    if actions != [] {
      var front, last := actions[..|actions| - 1], actions[|actions| - 1];
      assert last.journal != journal && NotBy(front, journal);
      OthersLeaveTip(w, front, journal, hash);
    }
  }

  /** A journal reads the tip after any history and appends after any steps of the others: the append
      is written exactly when the medium writes and nothing was written in between. When it is not
      written the backend is left alone. */
  lemma AppendWrittenExactlyWhenUndisturbed(
      w: World, history: seq<Action>, between: seq<Action>, append: Action, hash: Hash)
    requires Initial(w) && Shared(w.backend) && append.Append? && NotBy(between, append.journal)
    ensures var seen := Run(w, history, hash);
            var found := Run(Perform(seen, ReadTip(append.journal), hash), between, hash);
            && (Written(found, append, hash) <==>
                  !append.fault.Raises? && AllEvents(found.backend) == AllEvents(seen.backend))
            && (!Written(found, append, hash) ==> Perform(found, append, hash).backend == found.backend)
  {
    InitialHolds(w, hash);
    var seen := Run(w, history, hash);
    var before := RunKeeps(w, [], history, hash);
    var reading := Perform(seen, ReadTip(append.journal), hash);
    PerformKeeps(seen, before, ReadTip(append.journal), hash);
    var found := Run(reading, between, hash);
    var after := RunKeeps(reading, before, between, hash);
    OthersLeaveTip(reading, between, append.journal, hash);
    HeldList(seen.backend, before);
    HeldList(found.backend, after);
    assert after[..|before|] == before;
    AcceptedExactlyAtTip(found.backend, after, |before|, append.content, hash);
  }

  /** Once stored, an event stays at its place. */
  lemma StoredEventsStay(w: World, history: seq<Action>, more: seq<Action>, hash: Hash)
    requires Initial(w) && Shared(w.backend)
    ensures AllEvents(Run(w, history, hash).backend) <= AllEvents(Run(Run(w, history, hash), more, hash).backend)
  {
    InitialHolds(w, hash);
    var seen := Run(w, history, hash);
    var before := RunKeeps(w, [], history, hash);
    var after := RunKeeps(seen, before, more, hash);
    HeldList(seen.backend, before);
    HeldList(Run(seen, more, hash).backend, after);
  }

  /** The guarded list and the table cannot be told apart: the same actions on both write the same
      events and leave the same list and the same tips. */
  lemma {:induction false} TableRefinesList(actions: seq<Action>, hash: Hash) returns (events: seq<Event>)
    ensures Run(World(Redis([]), map[]), actions, hash).backend == Redis(events)
    ensures Holds(Run(World(SQLite(map[]), map[]), actions, hash).backend, events)
    ensures Run(World(Redis([]), map[]), actions, hash).tips == Run(World(SQLite(map[]), map[]), actions, hash).tips
    ensures Inv(Run(World(Redis([]), map[]), actions, hash), events, hash)
    ensures Inv(Run(World(SQLite(map[]), map[]), actions, hash), events, hash)
    decreases |actions|
  {
    var list, table := World(Redis([]), map[]), World(SQLite(map[]), map[]);
    if actions == [] {
      events := [];
    } else {
      var front, a := actions[..|actions| - 1], actions[|actions| - 1];
      var before := TableRefinesList(front, hash);
      var l, t := Run(list, front, hash), Run(table, front, hash);
      SameVerdict(l, t, before, a, hash);
      PerformKeeps(l, before, a, hash);
      PerformKeeps(t, before, a, hash);
      HeldList(l.backend, before);
      HeldList(t.backend, before);
      events := ListAfter(l, before, a, hash);
    }
  }

  lemma SameVerdict(l: World, t: World, events: seq<Event>, a: Action, hash: Hash)
    requires Inv(l, events, hash) && Inv(t, events, hash) && l.tips == t.tips
    ensures Written(l, a, hash) <==> Written(t, a, hash)
  {
    if a.Append? && a.journal in l.tips {
      var k :| 0 <= k <= |events| && l.tips[a.journal] == LastOf(events[..k]);
      AcceptedExactlyAtTip(l.backend, events, k, a.content, hash);
      AcceptedExactlyAtTip(t.backend, events, k, a.content, hash);
    }
  }

  // ---------- the list in memory ----------

  /** The append, if it is written, is made at the tip that its journal has read. */
  ghost predicate AtTip(w: World, a: Action, hash: Hash) {
    Written(w, a, hash) ==> w.tips[a.journal] == LastEvent(w.backend)
  }

  ghost predicate EveryAppendAtTip(w: World, actions: seq<Action>, hash: Hash) {
    forall k :: 0 <= k < |actions| ==> AtTip(Run(w, actions[..k], hash), actions[k], hash)
  }

  ghost predicate Unguarded(w: World) {
    w.backend.Memory? && forall j :: j in w.tips ==> OnceTip(w.tips[j], w.backend.events)
  }

  lemma PerformKeepsUnguarded(w: World, a: Action, hash: Hash)
    requires Unguarded(w)
    ensures Unguarded(Perform(w, a, hash))
  {
    var events := w.backend.events;
    if a.ReadTip? {
      assert events[..|events|] == events;
      assert OnceTip(LastEvent(w.backend), events);
    } else if Written(w, a, hash) {
      var e := NextEvent(w.tips[a.journal], a.content, hash);
      forall j | j in w.tips
        ensures OnceTip(w.tips[j], events + [e])
      {
        TipsStayOnce(w.tips[j], events, e);
      }
    }
  }

  lemma {:induction false} RunKeepsUnguarded(w: World, actions: seq<Action>, hash: Hash)
    requires Unguarded(w)
    ensures Unguarded(Run(w, actions, hash))
    decreases |actions|
  {
    if actions != [] {
      RunKeepsUnguarded(w, actions[..|actions| - 1], hash);
      PerformKeepsUnguarded(Run(w, actions[..|actions| - 1], hash), actions[|actions| - 1], hash);
    }
  }

  /** In a valid chain the number of an event tells its place, so only the last event is the tip whose
      next event continues the chain. */
  lemma ContinuesExactlyAtTip(events: seq<Event>, tip: Option<Event>, content: Content, hash: Hash)
    requires ChainValid(events, hash) && OnceTip(tip, events)
    ensures ChainValid(events + [NextEvent(tip, content, hash)], hash) <==> tip == LastOf(events)
  {
    var e := NextEvent(tip, content, hash);
    ExtensionIsValid(events, e, hash);
    var k :| 0 <= k <= |events| && tip == LastOf(events[..k]);
    assert k > 0 ==> Linked(events, k - 1, hash);
    assert events != [] ==> Linked(events, |events| - 1, hash);
    if k == |events| {
      assert events[..k] == events;
    } else {
      assert e.body.sequence == k + 1;
      assert NextEvent(LastOf(events), content, hash).body.sequence == |events| + 1;
      assert k > 0 ==> tip.value.body.sequence == k;
    }
  }

  lemma StepValidExactlyAtTip(w: World, a: Action, hash: Hash)
    requires Unguarded(w)
    ensures ChainValid(Perform(w, a, hash).backend.events, hash) <==>
              ChainValid(w.backend.events, hash) && AtTip(w, a, hash)
  {
    if Written(w, a, hash) {
      var events, e := w.backend.events, NextEvent(w.tips[a.journal], a.content, hash);
      assert (events + [e])[..|events|] == events;
      if ChainValid(events + [e], hash) {
        PrefixesAreValid(events + [e], |events|, hash);
      }
      if ChainValid(events, hash) {
        ContinuesExactlyAtTip(events, w.tips[a.journal], a.content, hash);
      }
    }
  }

  lemma LastActionAtTip(w: World, actions: seq<Action>, hash: Hash)
    requires actions != []
    ensures var front := actions[..|actions| - 1];
            EveryAppendAtTip(w, actions, hash) <==>
              EveryAppendAtTip(w, front, hash) && AtTip(Run(w, front, hash), actions[|actions| - 1], hash)
  {
    var front := actions[..|actions| - 1];
    assert forall k :: 0 <= k < |front| ==> front[..k] == actions[..k] && front[k] == actions[k];
    if EveryAppendAtTip(w, actions, hash) {
      forall k | 0 <= k < |front|
        ensures AtTip(Run(w, front[..k], hash), front[k], hash)
      {
        assert AtTip(Run(w, actions[..k], hash), actions[k], hash);
      }
    }
  }

  /** The list in memory checks nothing: any number of journals over one keep it a valid chain exactly
      when every append was made at the tip that its journal had read. */
  lemma {:induction false} MemoryChainValidExactlyWhen(w: World, actions: seq<Action>, hash: Hash)
    requires w.backend.Memory? && w.tips == map[] && ChainValid(w.backend.events, hash)
    ensures ChainValid(AllEvents(Run(w, actions, hash).backend), hash) <==> EveryAppendAtTip(w, actions, hash)
    decreases |actions|
  {
    RunKeepsUnguarded(w, actions, hash);
    if actions != [] {
      var front := actions[..|actions| - 1];
      MemoryChainValidExactlyWhen(w, front, hash);
      RunKeepsUnguarded(w, front, hash);
      StepValidExactlyAtTip(Run(w, front, hash), actions[|actions| - 1], hash);
      LastActionAtTip(w, actions, hash);
    }
  }

  /** A run that breaks it: two journals read the empty list and both append. */
  lemma SharedMemoryBreaksChain(content: Content, hash: Hash)
    ensures var actions := [ReadTip(0), ReadTip(1), Append(0, content, Fine), Append(1, content, Fine)];
            !ChainValid(AllEvents(Run(World(Memory([]), map[]), actions, hash).backend), hash)
  {
    var actions := [ReadTip(0), ReadTip(1), Append(0, content, Fine), Append(1, content, Fine)];
    var w := World(Memory([]), map[]);
    var e := NextEvent(None, content, hash);
    var first := [ReadTip(0)];
    assert actions[..3][..2] == first + [ReadTip(1)] && (first + [ReadTip(1)])[..1] == first && first[..0] == [];
    assert Run(w, first, hash) == Perform(w, ReadTip(0), hash);
    var two := Perform(Perform(w, ReadTip(0), hash), ReadTip(1), hash);
    assert Run(w, actions[..3][..2], hash) == two && two.backend == w.backend;
    assert 0 in two.tips && two.tips[0] == None && 1 in two.tips && two.tips[1] == None;
    var three := Perform(two, actions[2], hash);
    assert Run(w, actions[..3], hash) == three && three.backend == Memory([e]) && three.tips == two.tips - {0};
    assert Run(w, actions, hash).backend == Memory([e, e]);
    assert !Linked([e, e], 1, hash);
  }
}
