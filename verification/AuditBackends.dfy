/** The three places a journal can be kept in: a list in memory, a Redis list guarded by a length
    check, and an SQLite table keyed by sequence number. */
module AuditBackends {
  import opened Wrappers
  import opened AuditChain

  datatype Backend =
    | Memory(events: seq<Event>)
    | Redis(events: seq<Event>)
    | SQLite(rows: map<int, Event>)

  // ---------- the table ----------

  lemma Member<T>(s: set<T>) returns (x: T)
    requires s != {}
    ensures x in s
  {
    x :| x in s;
  }

  predicate IsMaximum(m: int, s: set<int>) {
    m in s && forall k :: k in s ==> k <= m
  }

  lemma {:induction false} HasMaximum(s: set<int>)
    requires s != {}
    ensures exists m :: IsMaximum(m, s)
    decreases |s|
  {
    var x := Member(s);
    var rest := s - {x};
    assert s == rest + {x};
    if rest != {} {
      HasMaximum(rest);
      var m :| IsMaximum(m, rest);
      assert IsMaximum(if x <= m then m else x, s);
    } else {
      assert IsMaximum(x, s);
    }
  }

  /** The greatest sequence number in a table: ORDER BY sequence DESC LIMIT 1. */
  function MaxKey(keys: set<int>): (m: int)
    requires keys != {}
    ensures IsMaximum(m, keys)
  {
    HasMaximum(keys);
    var m :| m in keys && IsMaximum(m, keys);
    m
  }

  /** The rows of a table: ORDER BY sequence ASC. */
  function Ascending(rows: map<int, Event>): seq<Event>
    decreases |rows|
  {
    if rows == map[] then []
    else
      var m := MaxKey(rows.Keys);
      assert m in rows;
      assert (rows - {m}).Keys == rows.Keys - {m};
      assert |(rows - {m}).Keys| < |rows.Keys|;
      Ascending(rows - {m}) + [rows[m]]
  }

  // ---------- the operations of a backend ----------

  function AllEvents(b: Backend): seq<Event> {
    match b
    case Memory(events) => events
    case Redis(events) => events
    case SQLite(rows) => Ascending(rows)
  }

  function LastEvent(b: Backend): Option<Event> {
    match b
    case Memory(events) => LastOf(events)
    case Redis(events) => LastOf(events)
    case SQLite(rows) => if rows == map[] then None else Some(rows[MaxKey(rows.Keys)])
  }

  /** Whether an append is let through: always in memory, when the length fits in Redis, when the
      primary key is free in SQLite. */
  predicate Accepts(b: Backend, e: Event) {
    match b
    case Memory(_) => true
    case Redis(events) => |events| + 1 == e.body.sequence
    case SQLite(rows) => e.body.sequence !in rows
  }

  function Appended(b: Backend, e: Event): Backend {
    match b
    case Memory(events) => Memory(events + [e])
    case Redis(events) => Redis(events + [e])
    case SQLite(rows) => SQLite(rows[e.body.sequence := e])
  }

  // ---------- what a backend stands for ----------

  /** The table of a list: row i + 1 holds event i, and there is no other row. */
  ghost predicate TableOf(rows: map<int, Event>, events: seq<Event>) {
    && (forall k :: k in rows <==> 1 <= k <= |events|)
    && (forall k :: 1 <= k <= |events| ==> rows[k] == events[k - 1])
  }

  ghost predicate Holds(b: Backend, events: seq<Event>) {
    match b
    case Memory(list) => list == events
    case Redis(list) => list == events
    case SQLite(rows) => TableOf(rows, events)
  }

  lemma {:induction false} TableListsInOrder(rows: map<int, Event>, events: seq<Event>)
    requires TableOf(rows, events)
    ensures Ascending(rows) == events
    ensures events == [] <==> rows == map[]
    ensures events != [] ==> MaxKey(rows.Keys) == |events|
    decreases |events|
  {
    if events == [] {
      forall k | k in rows
        ensures false
      {
      }
      assert rows == map[];
    } else {
      var n := |events|;
      assert n in rows;
      var front := rows - {n};
      TableListsInOrder(front, events[..n - 1]);
      assert MaxKey(rows.Keys) == n;
      assert events == events[..n - 1] + [events[n - 1]];
    }
  }

  /** The table and the guarded list behave as one list: same contents, same last event. */
  lemma HeldList(b: Backend, events: seq<Event>)
    requires Holds(b, events)
    ensures AllEvents(b) == events && LastEvent(b) == LastOf(events)
  {
    if b.SQLite? {
      TableListsInOrder(b.rows, events);
    }
  }

  /** Appending to what stands for a list stands for the longer list. */
  lemma AppendedList(b: Backend, events: seq<Event>, e: Event)
    requires Holds(b, events) && e.body.sequence == |events| + 1
    ensures Accepts(b, e) && Holds(Appended(b, e), events + [e])
  {
  }

  /** What each guard lets through, whoever numbers the events: the Redis script only the next number,
      the primary key any number not yet taken, so that SQLite relies on journals for the absence of
      gaps; memory anything. */
  lemma GuardsExactly(b: Backend, events: seq<Event>, e: Event)
    requires Holds(b, events)
    ensures Accepts(b, e) <==>
              match b
              case Memory(_) => true
              case Redis(_) => e.body.sequence == |events| + 1
              case SQLite(_) => !(1 <= e.body.sequence <= |events|)
  {
  }

  /** Both shared backends refuse every event numbered below the end of the list. */
  lemma StaleIsRefused(b: Backend, events: seq<Event>, e: Event)
    requires Holds(b, events) && !b.Memory? && 1 <= e.body.sequence <= |events|
    ensures !Accepts(b, e)
  {
  }
}

/** The journal object over one backend, and the backend object several journals may share. */
module AuditJournals {
  import opened Wrappers
  import opened Faults
  import opened AuditChain
  import opened AuditBackends

  datatype WriteError = AuditWriteError

  class AuditBackend {
    var store: Backend

    constructor (store: Backend)
      ensures this.store == store
    {
      this.store := store;
    }

    method All() returns (r: seq<Event>)
      ensures r == AllEvents(store)
    {
      r := AllEvents(store);
    }

    method Last() returns (r: Option<Event>)
      ensures r == LastEvent(store)
    {
      r := LastEvent(store);
    }

    /** The unconditional append of the list in memory, the length check of the Redis script, the
        primary key of the table. On a store that stands for a list: the next number lengthens the list
        by the event, unless the medium fails to write; a number already taken is refused by both shared
        stores, which are left alone; and no error that is reported hides a write, except the one of a
        medium that writes and then fails. */
    method Append(e: Event, fault: Fault, ghost events: seq<Event>) returns (r: Result<(), WriteError>)
      modifies this
      ensures Holds(old(store), events) && e.body.sequence == |events| + 1 ==>
                (r.Ok? <==> fault.Fine?) && Holds(store, if fault.Raises? then events else events + [e])
      ensures Holds(old(store), events) && 1 <= e.body.sequence <= |events| && !old(store).Memory? ==>
                r.Err? && Holds(store, events)
      ensures r.Err? && store != old(store) ==> !fault.Fine? && !fault.Raises?
      ensures r.Ok? <==> fault.Fine? && Accepts(old(store), e)
      ensures store == if !fault.Raises? && Accepts(old(store), e) then Appended(old(store), e) else old(store)
    {
      if fault.Raises? {
        return Err(AuditWriteError);
      }
      match store {
        case Memory(list) =>
          store := Memory(list + [e]);
        case Redis(list) =>
          if |list| + 1 != e.body.sequence {
            return Err(AuditWriteError);
          }
          store := Redis(list + [e]);
        case SQLite(rows) =>
          if e.body.sequence in rows {
            return Err(AuditWriteError);
          }
          store := SQLite(rows[e.body.sequence := e]);
      }
      if !fault.Fine? {
        return Err(AuditWriteError);
      }
      return Ok(());
    }
  }

  class AuditJournal {
    const backend: AuditBackend
    const hash: Hash

    constructor (backend: AuditBackend, hash: Hash)
      ensures this.backend == backend && this.hash == hash
    {
      this.backend := backend;
      this.hash := hash;
    }

    /** One undisturbed record call; reading says whether the read of the tip raises. On a backend that
        holds a valid chain it reports success exactly when neither call of the backend goes wrong, and
        then returns the event it has lengthened the chain by. When it reports a failure the chain is as
        it was, or, when the medium wrote and then failed, longer by that event; it is valid either way. */
    method Record(content: Content, reading: bool, fault: Fault, ghost events: seq<Event>)
      returns (r: Result<Event, WriteError>)
      modifies backend
      ensures Holds(old(backend.store), events) && ChainValid(events, hash) ==>
                var next := NextEvent(LastOf(events), content, hash);
                && (r.Ok? <==> !reading && fault.Fine?)
                && (r.Ok? ==> r.value == next && r.value.body.content == content)
                && Holds(backend.store, if reading || fault.Raises? then events else events + [next])
                && ChainValid(events + [next], hash)
      ensures reading || fault.Raises? ==> r.Err? && backend.store == old(backend.store)
    {
      if reading {
        if Holds(old(backend.store), events) && ChainValid(events, hash) {
          ExtensionIsValid(events, NextEvent(LastOf(events), content, hash), hash);
        }
        return Err(AuditWriteError);
      }
      var previous := backend.Last();
      var event := NextEvent(previous, content, hash);
      if Holds(old(backend.store), events) && ChainValid(events, hash) {
        HeldList(old(backend.store), events);
        ExtensionIsValid(events, event, hash);
        assert Linked(events + [event], |events|, hash);
      }
      var written := backend.Append(event, fault, events);
      if written.Err? {
        return Err(written.error);
      }
      return Ok(event);
    }

    method EventsFor(manifestId: string) returns (r: seq<Event>)
      ensures r == EventsForManifest(AllEvents(backend.store), manifestId)
    {
      var all := backend.All();
      r := EventsForManifest(all, manifestId);
    }

    method VerifyChain() returns (r: Result<(), Tampering>)
      ensures r.Ok? <==> ChainValid(AllEvents(backend.store), hash)
    {
      var all := backend.All();
      r := VerifyEventChain(all, hash);
    }
  }
}
