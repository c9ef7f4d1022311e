/** The row adapter over a table of versioned rows: prepare, validate, commit and compensate, and what
    the version column guarantees when any number of them interleave. */
module RowTable {
  import opened Wrappers

  datatype Row = Row(balance: int, version: int)

  type Table = map<string, Row>

  datatype Operation = Insert | Update | Delete

  /** The parameters and the fingerprint that a prepared manifest carries. */
  datatype RowManifest = RowManifest(
    operation: Operation, rowId: string, newBalance: Option<int>, previousBalance: Option<int>, expectedVersion: int)

  datatype CommitReply = Success(after: Option<Row>) | RowExists | NoMatchingRow

  datatype RowError = MissingBalance | BlastRadiusExceeded

  datatype CompensationReply = NotAttempted | Attempted(succeeded: bool)

  datatype Precondition = Satisfied | AlreadyExists | NoLongerExists | VersionChanged(observed: int)

  function Prepare(t: Table, operation: Operation, rowId: string, newBalance: Option<int>): RowManifest {
    RowManifest(
      operation, rowId, newBalance,
      if rowId in t then Some(t[rowId].balance) else None,
      if operation == Insert || rowId !in t then 0 else t[rowId].version)
  }

  function Validate(t: Table, m: RowManifest): Precondition {
    if m.operation == Insert then
      if m.rowId in t then AlreadyExists else Satisfied
    else if m.rowId !in t then NoLongerExists
    else if t[m.rowId].version != m.expectedVersion then VersionChanged(t[m.rowId].version)
    else Satisfied
  }

  /** The row the WHERE clause of an update or delete selects. */
  predicate Matches(t: Table, m: RowManifest) {
    m.rowId in t && t[m.rowId].version == m.expectedVersion
  }

  /** The table as the statement of the operation would leave it. */
  function Written(t: Table, m: RowManifest): Table
    requires m.operation != Delete ==> m.newBalance.Some?
    requires m.operation == Update ==> m.rowId in t
  {
    match m.operation
    case Insert => t[m.rowId := Row(m.newBalance.value, 0)]
    case Update => t[m.rowId := Row(m.newBalance.value, t[m.rowId].version + 1)]
    case Delete => t - {m.rowId}
  }

  /** The statement affects its one row. */
  predicate Affects(t: Table, m: RowManifest) {
    if m.operation == Insert then m.rowId !in t else Matches(t, m)
  }

  function CommitReplyOf(t: Table, m: RowManifest, maxAffected: int): Result<CommitReply, RowError> {
    if m.operation != Delete && m.newBalance.None? then Err(MissingBalance)
    else if m.operation == Insert && m.rowId in t then Ok(RowExists)
    else if (if Affects(t, m) then 1 else 0) > maxAffected then Err(BlastRadiusExceeded)
    else if !Affects(t, m) then Ok(NoMatchingRow)
    else Ok(Success(if m.operation == Delete then None else Some(Written(t, m)[m.rowId])))
  }

  predicate Commits(t: Table, m: RowManifest, maxAffected: int) {
    CommitReplyOf(t, m, maxAffected).Ok? && CommitReplyOf(t, m, maxAffected).value.Success?
  }

  function AfterCommit(t: Table, m: RowManifest, maxAffected: int): Table {
    if Commits(t, m, maxAffected) then Written(t, m) else t
  }

  /** When a commit takes effect, and what it leaves: an insert the given balance at version 0 where there
      was no row, an update the given balance one version up and a delete no row, both only where the row
      has the version expected; nothing else in the table moves, and a commit that does not succeed moves
      nothing at all. */
  lemma CommitExactly(t: Table, m: RowManifest, maxAffected: int)
    ensures var u := AfterCommit(t, m, maxAffected);
            var found := m.rowId in t && t[m.rowId].version == m.expectedVersion;
            && (Commits(t, m, maxAffected) <==>
                  && maxAffected >= 1 && (m.operation != Delete ==> m.newBalance.Some?)
                  && if m.operation == Insert then m.rowId !in t else found)
            && (Commits(t, m, maxAffected) ==>
                  match m.operation
                  case Insert => m.rowId in u && u[m.rowId] == Row(m.newBalance.value, 0)
                  case Update => m.rowId in u && u[m.rowId] == Row(m.newBalance.value, m.expectedVersion + 1)
                  case Delete => m.rowId !in u)
            && u - {m.rowId} == t - {m.rowId} && (!Commits(t, m, maxAffected) ==> u == t)
  {
  }

  /** Why a commit does not succeed, and what the check before it observes. */
  lemma RefusalsExactly(t: Table, m: RowManifest, maxAffected: int)
    ensures var r, there := CommitReplyOf(t, m, maxAffected), m.rowId in t;
            var touched := if m.operation == Insert then !there else there && t[m.rowId].version == m.expectedVersion;
            && (r == Err(MissingBalance) <==> m.operation != Delete && m.newBalance.None?)
            && (r == Ok(RowExists) <==> m.operation == Insert && m.newBalance.Some? && there)
            && (r == Ok(NoMatchingRow) <==>
                  && m.operation != Insert && (m.operation == Update ==> m.newBalance.Some?)
                  && !touched && maxAffected >= 0)
            && (r == Err(BlastRadiusExceeded) <==>
                  && (m.operation != Delete ==> m.newBalance.Some?) && (m.operation == Insert ==> !there)
                  && maxAffected < if touched then 1 else 0)
    ensures var there := m.rowId in t;
            && (Validate(t, m) == AlreadyExists <==> m.operation == Insert && there)
            && (Validate(t, m) == NoLongerExists <==> m.operation != Insert && !there)
            && (forall v :: Validate(t, m) == VersionChanged(v) <==>
                              m.operation != Insert && there && v == t[m.rowId].version && v != m.expectedVersion)
    ensures m.newBalance.Some? && maxAffected >= 1 ==> (Validate(t, m) == Satisfied <==> Commits(t, m, maxAffected))
  {
  }

  function CompensationOf(t: Table, m: RowManifest): CompensationReply {
    match m.operation
    case Delete => NotAttempted
    case Insert => Attempted(m.rowId in t)
    case Update => if m.previousBalance.None? then NotAttempted else Attempted(m.rowId in t)
  }

  function AfterCompensation(t: Table, m: RowManifest): Table {
    if CompensationOf(t, m) != Attempted(true) then t
    else if m.operation == Insert then t - {m.rowId}
    else t[m.rowId := Row(m.previousBalance.value, t[m.rowId].version + 1)]
  }

  // ---------- runs ----------

  /** Commits and compensations of any manifests by any number of adapters on one table. Prepares and
      validations only read it. */
  datatype Action = Commit(m: RowManifest) | Compensate(m: RowManifest)

  function Perform(t: Table, a: Action, maxAffected: int): Table {
    match a
    case Commit(m) => AfterCommit(t, m, maxAffected)
    case Compensate(m) => AfterCompensation(t, m)
  }

  function Run(t: Table, actions: seq<Action>, maxAffected: int): Table {
    if actions == [] then t
    else Perform(Run(t, actions[..|actions| - 1], maxAffected), actions[|actions| - 1], maxAffected)
  }

  /** The row exists after every prefix of the run. */
  ghost predicate StaysPresent(t: Table, actions: seq<Action>, id: string, maxAffected: int) {
    forall k :: 0 <= k <= |actions| ==> id in Run(t, actions[..k], maxAffected)
  }

  /** A step either leaves an existing row alone or raises its version by one or removes it. */
  lemma StepRaisesVersion(t: Table, a: Action, id: string, maxAffected: int)
    requires id in t && id in Perform(t, a, maxAffected)
    ensures var u := Perform(t, a, maxAffected);
            u[id] == t[id] || u[id].version == t[id].version + 1
  {
  }

  lemma {:induction false} PresentSplits(t: Table, actions: seq<Action>, id: string, maxAffected: int)
    requires actions != [] && StaysPresent(t, actions, id, maxAffected)
    ensures StaysPresent(t, actions[..|actions| - 1], id, maxAffected)
    ensures id in Run(t, actions, maxAffected) && id in Run(t, actions[..|actions| - 1], maxAffected)
  {
    var front := actions[..|actions| - 1];
    forall k | 0 <= k <= |front|
      ensures id in Run(t, front[..k], maxAffected)
    {
      assert front[..k] == actions[..k];
    }
    assert actions[..|actions|] == actions && front[..|front|] == front;
  }

  /** While a row stays, its version never falls, and an equal version means an untouched row. */
  lemma {:induction false} VersionsOnlyRise(t: Table, actions: seq<Action>, id: string, maxAffected: int)
    requires StaysPresent(t, actions, id, maxAffected)
    ensures id in t && id in Run(t, actions, maxAffected)
    ensures var u := Run(t, actions, maxAffected);
            t[id].version <= u[id].version && (t[id].version == u[id].version ==> t[id] == u[id])
    decreases |actions|
  {
    assert actions[..0] == [] && id in Run(t, actions[..0], maxAffected);
    if actions != [] {
      PresentSplits(t, actions, id, maxAffected);
      VersionsOnlyRise(t, actions[..|actions| - 1], id, maxAffected);
      StepRaisesVersion(Run(t, actions[..|actions| - 1], maxAffected), actions[|actions| - 1], id, maxAffected);
    }
  }

  /** Every write to a row that stays raises its version. */
  lemma WriteRaisesVersion(t: Table, a: Action, id: string, maxAffected: int)
    requires id in t && id in Perform(t, a, maxAffected)
    ensures a.m.rowId == id && Perform(t, a, maxAffected) != t ==>
              Perform(t, a, maxAffected)[id].version > t[id].version
  {
  }

  // ---------- the results ----------

  /** An update prepared against an existing row: whatever happened since, as long as the row was not
      deleted, it commits exactly when the row is untouched, and in particular only when the current
      balance is the previous balance recorded in its manifest. */
  lemma UpdateCommitsExactlyWhenUntouched(t: Table, id: string, newBalance: int, since: seq<Action>, maxAffected: int)
    requires StaysPresent(t, since, id, maxAffected) && maxAffected >= 1
    ensures id in t && id in Run(t, since, maxAffected)
    ensures var m := Prepare(t, Update, id, Some(newBalance));
            var u := Run(t, since, maxAffected);
            && (Commits(u, m, maxAffected) <==> u[id] == t[id])
            && (Commits(u, m, maxAffected) ==> m.previousBalance == Some(u[id].balance))
            && (Commits(u, m, maxAffected) <==> Validate(u, m) == Satisfied)
  {
    VersionsOnlyRise(t, since, id, maxAffected);
  }

  /** Once an update has committed it does not commit again while the row stays. */
  lemma UpdateCommitsAtMostOnce(t: Table, m: RowManifest, later: seq<Action>, maxAffected: int)
    requires m.operation == Update && Commits(t, m, maxAffected)
    requires StaysPresent(AfterCommit(t, m, maxAffected), later, m.rowId, maxAffected)
    ensures !Commits(Run(AfterCommit(t, m, maxAffected), later, maxAffected), m, maxAffected)
  {
    VersionsOnlyRise(AfterCommit(t, m, maxAffected), later, m.rowId, maxAffected);
  }

  /** Over a whole run on a row that stays, at most one commit of an update succeeds. */
  lemma OnlyOneCommitSucceeds(t: Table, actions: seq<Action>, m: RowManifest, i: nat, j: nat, maxAffected: int)
    requires m.operation == Update && StaysPresent(t, actions, m.rowId, maxAffected)
    requires i < j < |actions| && actions[i] == Commit(m) && actions[j] == Commit(m)
    requires Commits(Run(t, actions[..i], maxAffected), m, maxAffected)
    ensures !Commits(Run(t, actions[..j], maxAffected), m, maxAffected)
  {
    var between := actions[i + 1..j];
    var u := Run(t, actions[..i], maxAffected);
    var v := AfterCommit(u, m, maxAffected);
    assert actions[..i + 1][..i] == actions[..i];
    assert Run(t, actions[..i + 1], maxAffected) == v;
    RunConcatenates(t, actions[..i + 1], between, maxAffected);
    assert actions[..i + 1] + between == actions[..j];
    forall k | 0 <= k <= |between|
      ensures m.rowId in Run(v, between[..k], maxAffected)
    {
      RunConcatenates(t, actions[..i + 1], between[..k], maxAffected);
      assert actions[..i + 1] + between[..k] == actions[..i + 1 + k];
    }
    UpdateCommitsAtMostOnce(u, m, between, maxAffected);
  }

  lemma {:induction false} RunConcatenates(t: Table, a: seq<Action>, b: seq<Action>, maxAffected: int)
    ensures Run(t, a + b, maxAffected) == Run(Run(t, a, maxAffected), b, maxAffected)
    decreases |b|
  {
    if b == [] {
      assert a + b == a;
    } else {
      var front := b[..|b| - 1];
      assert (a + b)[..|a + b| - 1] == a + front;
      RunConcatenates(t, a, front, maxAffected);
    }
  }

  /** Updates that write the same balance again until the version reaches a given number. */
  lemma {:induction false} Climb(t: Table, id: string, version: int) returns (updates: seq<Action>)
    requires id in t && t[id].version <= version
    ensures id in Run(t, updates, 1) && Run(t, updates, 1)[id] == Row(t[id].balance, version)
    decreases version - t[id].version
  {
    if t[id].version == version {
      updates := [];
    } else {
      var a := Commit(RowManifest(Update, id, Some(t[id].balance), None, t[id].version));
      var u := Perform(t, a, 1);
      var more := Climb(u, id, version);
      updates := [a] + more;
      RunConcatenates(t, [a], more, 1);
      assert [a][..0] == [] && Run(t, [a], 1) == u;
    }
  }

  /** Deletion is the exception: an insert starts again at version 0, so for every row and every
      balance there is a run that deletes the row, inserts it anew and brings it to that balance under
      the old version; an update prepared against the old row then commits over it. */
  lemma ReinsertionDefeatsVersion(t: Table, id: string, newBalance: int, balance: int) returns (since: seq<Action>)
    requires id in t && t[id].version >= 0
    ensures id in Run(t, since, 1) && Run(t, since, 1)[id].balance == balance
    ensures Commits(Run(t, since, 1), Prepare(t, Update, id, Some(newBalance)), 1)
  {
    var d, i := Commit(Prepare(t, Delete, id, None)), Commit(Prepare(t, Insert, id, Some(balance)));
    var u := Perform(Perform(t, d, 1), i, 1);
    assert u[id] == Row(balance, 0);
    var updates := Climb(u, id, t[id].version);
    since := [d, i] + updates;
    RunConcatenates(t, [d, i], updates, 1);
    assert [d, i][..1] == [d] && [d][..0] == [];
    assert Run(t, [d], 1) == Perform(t, d, 1);
    assert Run(t, [d, i], 1) == u;
  }

  /** Compensating a committed update at once restores the balance, at a version two higher. */
  lemma CompensationRestoresBalance(t: Table, id: string, newBalance: int, maxAffected: int)
    requires id in t && maxAffected >= 1
    ensures var m := Prepare(t, Update, id, Some(newBalance));
            var u := AfterCompensation(AfterCommit(t, m, maxAffected), m);
            u == t[id := Row(t[id].balance, t[id].version + 2)]
  {
  }

  /** Compensation has no version guard. Whatever happened since the update was committed, it puts the
      recorded balance into the row if there is one, and touches nothing else. While the row stayed, it
      leaves the row that immediate compensation leaves exactly when the row is untouched since the
      commit; and it takes back its own change and keeps what the others changed exactly when the balance
      is still the committed one. */
  lemma CompensationAfterOtherWrites(t: Table, id: string, newBalance: int, since: seq<Action>, maxAffected: int)
    requires id in t && maxAffected >= 1
    ensures var m := Prepare(t, Update, id, Some(newBalance));
            var committed := AfterCommit(t, m, maxAffected);
            var found := Run(committed, since, maxAffected);
            var left := AfterCompensation(found, m);
            && (CompensationOf(found, m) == Attempted(id in found)) && (id in left <==> id in found)
            && left - {id} == found - {id}
            && (id in found ==> left[id].balance == t[id].balance && left[id].version == found[id].version + 1)
            && (StaysPresent(committed, since, id, maxAffected) ==>
                  && id in found && id in committed && id in left
                  && (left[id] == Row(t[id].balance, t[id].version + 2) <==> found[id] == committed[id])
                  && (left[id].balance == t[id].balance + (found[id].balance - committed[id].balance) <==>
                        found[id].balance == committed[id].balance))
  {
    var m := Prepare(t, Update, id, Some(newBalance));
    var committed := AfterCommit(t, m, maxAffected);
    if StaysPresent(committed, since, id, maxAffected) {
      VersionsOnlyRise(committed, since, id, maxAffected);
    }
  }

  /** So a later update by another adapter is overwritten without a trace, whatever it wrote. */
  lemma CompensationOverwritesLaterUpdate(t: Table, id: string, newBalance: int, other: int, maxAffected: int)
    requires id in t && maxAffected >= 1
    ensures var m := Prepare(t, Update, id, Some(newBalance));
            var committed := AfterCommit(t, m, maxAffected);
            var later := Prepare(committed, Update, id, Some(other));
            && Commits(committed, later, maxAffected)
            && AfterCompensation(AfterCommit(committed, later, maxAffected), m) ==
                 t[id := Row(t[id].balance, t[id].version + 3)]
  {
  }

  /** A compensated insert leaves the table as it was. */
  lemma CompensatedInsertUndoes(t: Table, id: string, newBalance: int, maxAffected: int)
    requires id !in t && maxAffected >= 1
    ensures var m := Prepare(t, Insert, id, Some(newBalance));
            Commits(t, m, maxAffected) && AfterCompensation(AfterCommit(t, m, maxAffected), m) == t
  {
    var m := Prepare(t, Insert, id, Some(newBalance));
    assert AfterCommit(t, m, maxAffected) - {id} == t;
  }
}

/** The adapter object over its table. */
module RowAdapter {
  import opened Wrappers
  import opened RowTable

  class SQLiteRowAdapter {
    var table: Table
    const maxAffectedRows: int

    constructor (maxAffectedRows: int)
      ensures table == map[] && this.maxAffectedRows == maxAffectedRows
    {
      table := map[];
      this.maxAffectedRows := maxAffectedRows;
    }

    method PrepareManifest(operation: Operation, rowId: string, newBalance: Option<int>) returns (m: RowManifest)
      ensures m == Prepare(table, operation, rowId, newBalance)
    {
      var existing: Option<Row> := if rowId in table then Some(table[rowId]) else None;
      var expected := 0;
      if operation != Insert && existing.Some? {
        expected := existing.value.version;
      }
      m := RowManifest(
        operation, rowId, newBalance, if existing.Some? then Some(existing.value.balance) else None, expected);
    }

    method ValidatePreconditions(m: RowManifest) returns (r: Precondition)
      ensures r == Validate(table, m)
    {
      r := Validate(table, m);
    }

    /** Runs the statement, counts the rows it touched, and rolls back when they are none or too many. */
    method Commit(m: RowManifest) returns (r: Result<CommitReply, RowError>)
      modifies this
      ensures r == CommitReplyOf(old(table), m, maxAffectedRows)
      ensures table == AfterCommit(old(table), m, maxAffectedRows)
    {
      var before := table;
      var affected := 0;
      if m.operation != Delete && m.newBalance.None? {
        return Err(MissingBalance);
      }
      if m.operation == Insert && m.rowId in table {
        return Ok(RowExists);
      }
      if m.operation == Insert {
        table := table[m.rowId := Row(m.newBalance.value, 0)];
        affected := 1;
      } else if m.rowId in table && table[m.rowId].version == m.expectedVersion {
        affected := 1;
        if m.operation == Update {
          table := table[m.rowId := Row(m.newBalance.value, table[m.rowId].version + 1)];
        } else {
          table := table - {m.rowId};
        }
      }
      if affected > maxAffectedRows {
        table := before;
        return Err(BlastRadiusExceeded);
      }
      if affected == 0 {
        table := before;
        return Ok(NoMatchingRow);
      }
      return Ok(Success(if m.rowId in table then Some(table[m.rowId]) else None));
    }

    method Compensate(m: RowManifest) returns (r: CompensationReply)
      modifies this
      ensures r == CompensationOf(old(table), m)
      ensures table == AfterCompensation(old(table), m)
    {
      if m.operation == Delete || (m.operation == Update && m.previousBalance.None?) {
        return NotAttempted;
      }
      if m.rowId !in table {
        return Attempted(false);
      }
      if m.operation == Insert {
        table := table - {m.rowId};
      } else {
        table := table[m.rowId := Row(m.previousBalance.value, table[m.rowId].version + 1)];
      }
      return Attempted(true);
    }
  }
}
