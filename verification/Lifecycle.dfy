/** The lifecycle of one manifest: the states, the legal edges between them,
    and the compare-and-set store that several engines share. */
module Lifecycle {

  datatype State =
    | Proposed | Prepared | Sealed | Authorized | Committing | Committed | Verified
    | Failed | RecoveredCommitted | Revoked | Expired | Compensating | Compensated

  /** The transition table. */
  predicate Legal(current: State, target: State) {
    match current
    case Proposed => target in {Prepared, Failed, Revoked}
    case Prepared => target in {Sealed, Failed, Revoked, Expired}
    case Sealed => target in {Authorized, Failed, Revoked, Expired}
    case Authorized => target in {Committing, Failed, Revoked, Expired}
    case Committing => target in {Committed, Failed}
    case Committed => target == Verified
    case Verified => target in {Compensating, Compensated}
    case Compensating => target in {Compensated, Failed}
    case Failed => target == RecoveredCommitted
    case RecoveredCommitted => false
    case Revoked => false
    case Expired => false
    case Compensated => false
  }

  /** A height that every legal edge raises, so that no state is visited twice. */
  function Height(s: State): nat {
    match s
    case Proposed => 0
    case Prepared => 1
    case Sealed => 2
    case Authorized => 3
    case Committing => 4
    case Committed => 5
    case Verified => 6
    case Compensating => 7
    case Compensated => 8
    case Failed => 8
    case RecoveredCommitted => 9
    case Revoked => 9
    case Expired => 9
  }

  /** A sequence of states in which every step is a legal edge. */
  ghost predicate LegalPath(path: seq<State>) {
    forall i :: 0 <= i < |path| - 1 ==> Legal(path[i], path[i + 1])
  }

  /** A legal path climbs, hence it holds every state at most once. */
  lemma {:induction false} LegalPathClimbs(path: seq<State>, i: nat, j: nat)
    requires LegalPath(path) && i < j < |path|
    ensures Height(path[i]) < Height(path[j]) && path[i] != path[j]
    decreases j
  {
    if i < j - 1 {
      LegalPathClimbs(path, i, j - 1);
    }
    assert Legal(path[j - 1], path[j]);
  }

  /** The table read from its targets: where each state can be entered from. */
  lemma SourcesExactly(current: State, target: State)
    ensures Legal(current, target) <==>
              match target
              case Proposed => false
              case Prepared => current == Proposed
              case Sealed => current == Prepared
              case Authorized => current == Sealed
              case Committing => current == Authorized
              case Committed => current == Committing
              case Verified => current == Committed
              case Compensating => current == Verified
              case Compensated => current == Verified || current == Compensating
              case Failed => current in {Proposed, Prepared, Sealed, Authorized, Committing, Compensating}
              case RecoveredCommitted => current == Failed
              case Revoked => current in {Proposed, Prepared, Sealed, Authorized}
              case Expired => current in {Prepared, Sealed, Authorized}
  {
  }

  const WayToCommitted := [Proposed, Prepared, Sealed, Authorized, Committing, Committed]

  /** There is one way to COMMITTED: nothing is committed that was not prepared, sealed and authorized. */
  lemma {:induction false} CommittedInOneWay(path: seq<State>, j: nat)
    requires LegalPath(path) && path != [] && path[0] == Proposed && j < |path|
    ensures path[j] in WayToCommitted ==> j < 6 && path[..j + 1] == WayToCommitted[..j + 1]
    decreases j
  {
    if j > 0 {
      CommittedInOneWay(path, j - 1);
      assert Legal(path[j - 1], path[j]);
      assert path[..j + 1] == path[..j] + [path[j]];
      if path[j] in WayToCommitted {
        SourcesExactly(path[j - 1], path[j]);
        assert path[j - 1] in WayToCommitted;
        assert WayToCommitted[..j + 1] == WayToCommitted[..j] + [WayToCommitted[j]];
      }
    } else {
      assert path[..1] == [Proposed] && WayToCommitted[..1] == [Proposed];
    }
  }

  lemma CommittedPath(path: seq<State>, j: nat)
    requires LegalPath(path) && j < |path| && path[0] == Proposed && path[j] == Committed
    ensures path[..j + 1] == WayToCommitted
  {
    CommittedInOneWay(path, j);
    assert path[j] == path[..j + 1][j] == WayToCommitted[j];
  }

  type Table = map<string, State>

  /** What a reader sees for a manifest: a missing row reads as PROPOSED. */
  function Stored(table: Table, id: string): State {
    if id in table then table[id] else Proposed
  }
}
