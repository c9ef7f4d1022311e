/** The hash chain of the audit journal: the full check of a journal from its first event, the weaker
    check of a slice, and what each of them guarantees. The hash is any function of the event without
    its own hash; freedom from collisions is a hypothesis of the results that need it. */
module AuditChain {
  import opened Wrappers

  datatype Content = Content(
    eventId: string, timestamp: int, manifestId: Option<string>, manifestHash: Option<string>,
    grantId: Option<string>, actorId: Option<string>, eventType: string, fromState: Option<string>,
    toState: Option<string>, decision: string, metadata: map<string, string>)

  /** What the event hash covers: everything but the hash itself. */
  datatype Body = Body(sequence: int, previousHash: Option<string>, content: Content)

  datatype Event = Event(body: Body, eventHash: string)

  type Hash = Body -> string

  ghost predicate Injective(hash: Hash) {
    forall a, b :: hash(a) == hash(b) ==> a == b
  }

  datatype Tampering =
    | SequenceGap(expected: int, got: int)
    | PreviousHashMismatch(at: int)
    | HashMismatch(sequence: int)
    | NotIncreasing(previous: int, next: int)

  function LastOf(events: seq<Event>): Option<Event> {
    if events == [] then None else Some(events[|events| - 1])
  }

  function HashOf(e: Option<Event>): Option<string> {
    if e.None? then None else Some(e.value.eventHash)
  }

  /** Event i is numbered i + 1, names the hash of the event before it, and carries its own hash. */
  predicate Linked(events: seq<Event>, i: nat, hash: Hash)
    requires i < |events|
  {
    && events[i].body.sequence == i + 1
    && events[i].body.previousHash == HashOf(LastOf(events[..i]))
    && hash(events[i].body) == events[i].eventHash
  }

  predicate ChainValid(events: seq<Event>, hash: Hash) {
    forall i :: 0 <= i < |events| ==> Linked(events, i, hash)
  }

  /** The complaint of the full check about event i, given that all before it passed. */
  ghost predicate Complaint(events: seq<Event>, i: nat, hash: Hash, error: Tampering)
    requires i < |events|
  {
    var body := events[i].body;
    if body.sequence != i + 1 then error == SequenceGap(i + 1, body.sequence)
    else if body.previousHash != HashOf(LastOf(events[..i])) then error == PreviousHashMismatch(i + 1)
    else hash(body) != events[i].eventHash && error == HashMismatch(i + 1)
  }

  /** Accepts exactly the valid chains; otherwise complains about the first event out of place. */
  method VerifyEventChain(events: seq<Event>, hash: Hash) returns (r: Result<(), Tampering>)
    ensures r.Ok? <==> ChainValid(events, hash)
    ensures r.Err? ==>
              exists k :: 0 <= k < |events| && ChainValid(events[..k], hash) && Complaint(events, k, hash, r.error)
  {
    var expectedPrevious: Option<string> := None;
    var expectedSequence := 1;
    for i := 0 to |events|
      invariant expectedSequence == i + 1 && expectedPrevious == HashOf(LastOf(events[..i]))
      invariant forall j :: 0 <= j < i ==> Linked(events, j, hash)
    {
      PrefixLinks(events, i, hash);
      var event := events[i];
      assert !Linked(events, i, hash) ==> !ChainValid(events, hash);
      if event.body.sequence != expectedSequence {
        return Err(SequenceGap(expectedSequence, event.body.sequence));
      }
      if event.body.previousHash != expectedPrevious {
        return Err(PreviousHashMismatch(event.body.sequence));
      }
      if hash(event.body) != event.eventHash {
        return Err(HashMismatch(event.body.sequence));
      }
      expectedPrevious := Some(event.eventHash);
      expectedSequence := expectedSequence + 1;
      assert LastOf(events[..i + 1]) == Some(event);
    }
    return Ok(());
  }

  lemma PrefixLinks(events: seq<Event>, k: nat, hash: Hash)
    requires k <= |events| && forall j :: 0 <= j < k ==> Linked(events, j, hash)
    ensures ChainValid(events[..k], hash)
  {
    forall j | 0 <= j < k
      ensures Linked(events[..k], j, hash)
    {
      assert events[..k][..j] == events[..j] && Linked(events, j, hash);
    }
  }

  /** Every prefix of a valid chain is a valid chain. */
  lemma PrefixesAreValid(events: seq<Event>, k: nat, hash: Hash)
    requires ChainValid(events, hash) && k <= |events|
    ensures ChainValid(events[..k], hash)
  {
    PrefixLinks(events, k, hash);
  }

  /** The event that continues a journal whose last event is the given one. */
  function NextEvent(tip: Option<Event>, content: Content, hash: Hash): Event {
    var body := Body(if tip.Some? then tip.value.body.sequence + 1 else 1, HashOf(tip), content);
    Event(body, hash(body))
  }

  /** A valid chain grows by the next event of its tip into a valid chain, and by no other event
      with the same content. */
  lemma ExtensionIsValid(events: seq<Event>, e: Event, hash: Hash)
    requires ChainValid(events, hash)
    ensures ChainValid(events + [e], hash) <==> e == NextEvent(LastOf(events), e.body.content, hash)
  {
    var longer := events + [e];
    assert longer[..|events|] == events;
    assert events != [] ==> Linked(events, |events| - 1, hash);
    forall i | 0 <= i < |events|
      ensures Linked(longer, i, hash)
    {
      assert longer[..i] == events[..i] && Linked(events, i, hash);
    }
    assert ChainValid(longer, hash) <==> Linked(longer, |events|, hash);
  }

  /** With a collision-free hash the tip determines the journal: a journal that was altered,
      shortened, extended or reordered anywhere cannot keep its last hash and stay valid. */
  lemma {:induction false} TipDeterminesJournal(a: seq<Event>, b: seq<Event>, hash: Hash)
    requires ChainValid(a, hash) && ChainValid(b, hash) && Injective(hash)
    requires HashOf(LastOf(a)) == HashOf(LastOf(b))
    ensures a == b
    decreases |a|
  {
    if a != [] {
      var i, j := |a| - 1, |b| - 1;
      assert Linked(a, i, hash) && Linked(b, j, hash);
      assert a[i].body == b[j].body;
      PrefixesAreValid(a, i, hash);
      PrefixesAreValid(b, j, hash);
      TipDeterminesJournal(a[..i], b[..j], hash);
      assert a == a[..i] + [a[i]] && b == b[..j] + [b[j]];
    }
  }

  // ---------- slices ----------

  /** Own hashes right, sequence numbers strictly increasing. */
  predicate SelfConsistent(events: seq<Event>, hash: Hash) {
    && (forall i :: 0 <= i < |events| ==> hash(events[i].body) == events[i].eventHash)
    && (forall i, j :: 0 <= i < j < |events| ==> events[i].body.sequence < events[j].body.sequence)
  }

  method VerifyEventSelfConsistency(events: seq<Event>, hash: Hash) returns (r: Result<(), Tampering>)
    ensures r.Ok? <==> SelfConsistent(events, hash)
    ensures r.Err? ==>
              exists k :: 0 <= k < |events|
                          && SelfConsistent(events[..k], hash) && !SelfConsistent(events[..k + 1], hash)
  {
    var previous: Option<int> := None;
    for i := 0 to |events|
      invariant previous == if i == 0 then None else Some(events[i - 1].body.sequence)
      invariant SelfConsistent(events[..i], hash)
    {
      var event := events[i];
      assert events[..i + 1] == events[..i] + [event];
      if previous.Some? && event.body.sequence <= previous.value {
        assert events[..i + 1][i - 1] == events[i - 1] && events[..i + 1][i] == event;
        assert !SelfConsistent(events[..i + 1], hash);
        return Err(NotIncreasing(previous.value, event.body.sequence));
      }
      if hash(event.body) != event.eventHash {
        assert events[..i + 1][i] == event;
        assert !SelfConsistent(events[..i + 1], hash);
        return Err(HashMismatch(event.body.sequence));
      }
      previous := Some(event.body.sequence);
    }
    assert events[..|events|] == events;
    return Ok(());
  }

  function EventsForManifest(events: seq<Event>, manifestId: string): (r: seq<Event>)
    ensures forall e :: e in r <==> e in events && e.body.content.manifestId == Some(manifestId)
  {
    if events == [] then []
    else
      var rest := EventsForManifest(events[..|events| - 1], manifestId);
      var last := events[|events| - 1];
      assert events == events[..|events| - 1] + [last];
      if last.body.content.manifestId == Some(manifestId) then rest + [last] else rest
  }

  /** Every per-manifest slice of a valid chain passes the slice check. */
  lemma {:induction false} SlicesAreSelfConsistent(events: seq<Event>, manifestId: string, hash: Hash)
    requires ChainValid(events, hash)
    ensures SelfConsistent(EventsForManifest(events, manifestId), hash)
    decreases |events|
  {
    if events != [] {
      var front, last := events[..|events| - 1], events[|events| - 1];
      PrefixesAreValid(events, |front|, hash);
      SlicesAreSelfConsistent(front, manifestId, hash);
      assert Linked(events, |front|, hash);
      forall e | e in EventsForManifest(front, manifestId)
        ensures e.body.sequence < last.body.sequence
      {
        var i :| 0 <= i < |front| && front[i] == e;
        assert Linked(events, i, hash);
      }
    }
  }

  /** The slice check with a collision-free hash: slices with the same list of event hashes are the
      same slice, so no embedded event can be altered under its hash. */
  lemma SliceHashesDetermineSlice(a: seq<Event>, b: seq<Event>, hash: Hash)
    requires SelfConsistent(a, hash) && SelfConsistent(b, hash) && Injective(hash)
    requires |a| == |b| && forall i :: 0 <= i < |a| ==> a[i].eventHash == b[i].eventHash
    ensures a == b
  {
    forall i | 0 <= i < |a|
      ensures a[i] == b[i]
    {
      assert hash(a[i].body) == hash(b[i].body);
    }
  }
}
