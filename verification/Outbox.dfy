/** The transactional outbox: one commit intent per idempotency key. */
module Outbox {
  import opened Wrappers

  datatype Status = Pending | Confirmed | Abandoned

  /** An intent is bound to the grant and to the manifest (by hash) that recorded it. */
  datatype Entry<M> = Entry(grantId: string, manifest: M, status: Status)

  type Table<M> = map<string, Entry<M>>

  /** Recording again is accepted only for the same intent while it is still pending. */
  function RecordPending<M(==)>(t: Table<M>, key: string, grantId: string, manifest: M): Option<Table<M>> {
    if key !in t then Some(t[key := Entry(grantId, manifest, Pending)])
    else if t[key] == Entry(grantId, manifest, Pending) then Some(t)
    else None
  }

  function MarkConfirmed<M>(t: Table<M>, key: string): Option<Table<M>> {
    if key !in t || t[key].status == Abandoned then None
    else Some(t[key := t[key].(status := Confirmed)])
  }

  function MarkAbandoned<M>(t: Table<M>, key: string): Option<Table<M>> {
    if key !in t || t[key].status == Confirmed then None
    else Some(t[key := t[key].(status := Abandoned)])
  }

  /** The life of a key: recording makes it pending, for that grant and manifest; confirming and
      abandoning end it the one way or the other, again and again but never both; and neither touches
      whose intent it is, or any other key. */
  lemma KeysLifeExactly<M>(t: Table<M>, key: string, other: string, grantId: string, manifest: M)
    requires key in t && other != key
    ensures RecordPending(t - {key}, key, grantId, manifest) == Some(t[key := Entry(grantId, manifest, Pending)])
    ensures RecordPending(t, key, grantId, manifest).Some? <==>
              t[key].status == Pending && t[key].grantId == grantId && t[key].manifest == manifest
    ensures MarkConfirmed(t, key).Some? <==> t[key].status != Abandoned
    ensures MarkAbandoned(t, key).Some? <==> t[key].status != Confirmed
    ensures MarkConfirmed(t - {key}, key).None? && MarkAbandoned(t - {key}, key).None?
    ensures forall u :: MarkConfirmed(t, key) == Some(u) ==>
              && u.Keys == t.Keys && u[key] == Entry(t[key].grantId, t[key].manifest, Confirmed)
              && (other in t ==> u[other] == t[other]) && MarkAbandoned(u, key).None?
                 && MarkConfirmed(u, key) == Some(u)
    ensures forall u :: MarkAbandoned(t, key) == Some(u) ==>
              && u.Keys == t.Keys && u[key] == Entry(t[key].grantId, t[key].manifest, Abandoned)
              && (other in t ==> u[other] == t[other]) && MarkConfirmed(u, key).None?
                 && MarkAbandoned(u, key) == Some(u)
  {
    assert (t - {key})[key := Entry(grantId, manifest, Pending)] == t[key := Entry(grantId, manifest, Pending)];
    if MarkConfirmed(t, key).Some? {
      var u := MarkConfirmed(t, key).value;
      assert u[key := u[key].(status := Confirmed)] == u;
    }
    if MarkAbandoned(t, key).Some? {
      var u := MarkAbandoned(t, key).value;
      assert u[key := u[key].(status := Abandoned)] == u;
    }
  }
}
