/** Quorum evaluation over signed approval statements: filter, group by approver, keep the latest
    statement of each, sort, count, hash. */
module Quorum {
  import opened Wrappers
  import opened Principals
  import Ordering

  datatype Decision = Approve | Dissent

  datatype Statement = Statement(
    statementId: string, manifestHash: string, policyHash: string, approver: Principal,
    role: Option<string>, decision: Decision, reason: Option<string>, signedAt: int, expiresAt: int,
    nonce: string, keyId: string, signature: Option<string>)

  datatype Policy = Policy(
    requiredApprovals: int, requiredRoles: seq<string>, forbidProposer: bool, forbidSubject: bool,
    vetoOnDissent: bool, coolingOff: int, maxStatements: int)

  /** The fixed inputs of one evaluation. signatureFault stands for the schema, algorithm and keyring
      checks; statementHash and setHash for the canonical hashes of a statement and of a list. */
  datatype Context = Context(
    manifestHash: string, policyHash: string, policy: Policy, proposer: string, subject: string,
    now: int, signatureFault: Statement -> Option<string>, statementHash: Statement -> string,
    setHash: seq<string> -> string)

  datatype Reason =
    | ManifestMismatch | PolicyMismatch | AgentApprover | ProposerApprover | SubjectApprover
    | BadSignature(why: string) | Expired | Superseded

  /** The fields that authorization depends on. */
  datatype Outcome = Outcome(
    satisfied: bool, approvingCount: nat, approvingIds: seq<string>, dissentingIds: seq<string>,
    missingRoles: seq<string>, approvalSetHash: string)

  datatype QuorumResult = QuorumResult(outcome: Outcome, rejected: seq<(string, Reason)>)

  datatype Error = BatchTooLarge

  /** Everything except the signature: what is signed and hashed. */
  function Payload(s: Statement): Statement {
    s.(signature := None)
  }

  function RejectReason(s: Statement, ctx: Context): Option<Reason> {
    if s.manifestHash != ctx.manifestHash then Some(ManifestMismatch)
    else if s.policyHash != ctx.policyHash then Some(PolicyMismatch)
    else if s.approver.kind == Agent then Some(AgentApprover)
    else if ctx.policy.forbidProposer && s.approver.id == ctx.proposer then Some(ProposerApprover)
    else if ctx.policy.forbidSubject && s.approver.id == ctx.subject then Some(SubjectApprover)
    else if ctx.signatureFault(s).Some? then Some(BadSignature(ctx.signatureFault(s).value))
    else if ctx.now > s.expiresAt then Some(Expired)
    else None
  }

  // ---------- grouping ----------

  function Survivors(xs: seq<Statement>, ctx: Context): (r: seq<Statement>)
    ensures forall s :: s in r <==> s in xs && RejectReason(s, ctx).None?
  {
    if xs == [] then []
    else
      var front := Survivors(xs[..|xs| - 1], ctx);
      var last := xs[|xs| - 1];
      assert xs == xs[..|xs| - 1] + [last];
      if RejectReason(last, ctx).None? then front + [last] else front
  }

  /** The statements of one approver, in the order given. */
  function Group(xs: seq<Statement>, id: string): (r: seq<Statement>)
    ensures forall s :: s in r <==> s in xs && s.approver.id == id
  {
    if xs == [] then []
    else
      var front := Group(xs[..|xs| - 1], id);
      var last := xs[|xs| - 1];
      assert xs == xs[..|xs| - 1] + [last];
      if last.approver.id == id then front + [last] else front
  }

  /** The approvers in the order of their first statements. */
  function Ids(xs: seq<Statement>): (r: seq<string>)
    ensures forall id :: id in r <==> Group(xs, id) != []
    ensures forall i, j :: 0 <= i < j < |r| ==> r[i] != r[j]
  {
    if xs == [] then []
    else
      var front := Ids(xs[..|xs| - 1]);
      var id := xs[|xs| - 1].approver.id;
      if id in front then front else front + [id]
  }

  /** The order in which statements supersede one another: by signing time, then by id. */
  predicate Before(s: Statement, t: Statement) {
    s.signedAt < t.signedAt || (s.signedAt == t.signedAt && !Ordering.Leq(t.statementId, s.statementId))
  }

  /** The first of the latest statements of a group. */
  function Winner(group: seq<Statement>): (w: Statement)
    requires group != []
    ensures w in group
    decreases |group|
  {
    if |group| == 1 then group[0]
    else
      var w := Winner(group[..|group| - 1]);
      var last := group[|group| - 1];
      if Before(w, last) then last else w
  }

  function SupersededIn(group: seq<Statement>, winner: Statement): seq<(string, Reason)> {
    if group == [] then []
    else
      var front := SupersededIn(group[..|group| - 1], winner);
      var id := group[|group| - 1].statementId;
      if id != winner.statementId then front + [(id, Superseded)] else front
  }

  function SupersededOf(xs: seq<Statement>, order: seq<string>): seq<(string, Reason)>
    requires forall id :: id in order ==> Group(xs, id) != []
  {
    if order == [] then []
    else
      var group := Group(xs, order[|order| - 1]);
      SupersededOf(xs, order[..|order| - 1]) + SupersededIn(group, Winner(group))
  }

  lemma GroupStep(xs: seq<Statement>, i: nat, id: string)
    requires i < |xs|
    ensures Group(xs[..i + 1], id) == Group(xs[..i], id) + (if xs[i].approver.id == id then [xs[i]] else [])
  {
    assert xs[..i + 1][..i] == xs[..i];
  }

  lemma IdsStep(xs: seq<Statement>, i: nat)
    requires i < |xs|
    ensures Ids(xs[..i + 1]) == Ids(xs[..i]) + (if xs[i].approver.id in Ids(xs[..i]) then [] else [xs[i].approver.id])
  {
    assert xs[..i + 1][..i] == xs[..i];
  }

  /** The statements of each approver, and the approvers in the order of insertion. */
  method GroupByApprover(xs: seq<Statement>) returns (order: seq<string>, groups: map<string, seq<Statement>>)
    ensures order == Ids(xs)
    ensures forall id :: id in groups <==> id in order
    ensures forall id :: id in groups ==> groups[id] == Group(xs, id)
  {
    groups, order := map[], [];
    for i := 0 to |xs|
      invariant order == Ids(xs[..i])
      invariant forall id :: id in groups <==> id in order
      invariant forall id :: id in groups ==> groups[id] == Group(xs[..i], id)
    {
      var id := xs[i].approver.id;
      IdsStep(xs, i);
      forall other {
        GroupStep(xs, i, other);
      }
      if id !in groups {
        groups := groups[id := []];
        order := order + [id];
      }
      groups := groups[id := groups[id] + [xs[i]]];
    }
    assert xs[..|xs|] == xs;
  }

  /** Lists the statements of a group that give way to its winner. */
  method Supersede(group: seq<Statement>, winner: Statement) returns (r: seq<(string, Reason)>)
    ensures r == SupersededIn(group, winner)
  {
    r := [];
    for m := 0 to |group|
      invariant r == SupersededIn(group[..m], winner)
    {
      assert group[..m + 1][..m] == group[..m];
      if group[m].statementId != winner.statementId {
        r := r + [(group[m].statementId, Superseded)];
      }
    }
    assert group[..|group|] == group;
  }

  lemma SupersededStep(xs: seq<Statement>, order: seq<string>, k: nat)
    requires (forall id :: id in order ==> Group(xs, id) != []) && k < |order|
    ensures var group := Group(xs, order[k]);
            order[k] in order
            && SupersededOf(xs, order[..k + 1]) == SupersededOf(xs, order[..k]) + SupersededIn(group, Winner(group))
  {
    assert order[..k + 1][..k] == order[..k] && order[..k + 1][k] == order[k];
  }

  /** Keeps the latest statement of each approver; the rest are listed as superseded. */
  method SelectAuthoritative(xs: seq<Statement>)
    returns (order: seq<string>, authoritative: map<string, Statement>, superseded: seq<(string, Reason)>)
    ensures order == Ids(xs)
    ensures forall id :: id in order ==> id in authoritative && authoritative[id] == Winner(Group(xs, id))
    ensures superseded == SupersededOf(xs, order)
  {
    var groups;
    order, groups := GroupByApprover(xs);
    authoritative := map[];
    superseded := [];
    for k := 0 to |order|
      invariant forall i :: 0 <= i < k ==>
                  order[i] in authoritative && authoritative[order[i]] == Winner(Group(xs, order[i]))
      invariant superseded == SupersededOf(xs, order[..k])
    {
      SupersededStep(xs, order, k);
      var group := groups[order[k]];
      var winner := Winner(group);
      authoritative := authoritative[order[k] := winner];
      var more := Supersede(group, winner);
      superseded := superseded + more;
    }
    assert order[..|order|] == order;
  }

  // ---------- the decision ----------

  const ApproverId := (s: Statement) => s.approver.id

  function WinnersOf(xs: seq<Statement>, order: seq<string>): (r: seq<Statement>)
    requires forall id :: id in order ==> Group(xs, id) != []
    ensures |r| == |order| && forall i :: 0 <= i < |r| ==> r[i] == Winner(Group(xs, order[i]))
  {
    if order == [] then []
    else WinnersOf(xs, order[..|order| - 1]) + [Winner(Group(xs, order[|order| - 1]))]
  }

  function Voting(xs: seq<Statement>, decision: Decision): (r: seq<Statement>)
    ensures forall s :: s in r <==> s in xs && s.decision == decision
  {
    if xs == [] then []
    else
      var front := Voting(xs[..|xs| - 1], decision);
      var last := xs[|xs| - 1];
      assert xs == xs[..|xs| - 1] + [last];
      if last.decision == decision then front + [last] else front
  }

  function IdsOf(xs: seq<Statement>): (r: seq<string>)
    ensures |r| == |xs| && forall i :: 0 <= i < |r| ==> r[i] == xs[i].approver.id
  {
    seq(|xs|, i requires 0 <= i < |xs| => xs[i].approver.id)
  }

  function RolesOf(xs: seq<Statement>): set<string> {
    set s | s in xs && s.role.Some? :: s.role.value
  }

  function Missing(roles: seq<string>, present: set<string>): (r: seq<string>)
    ensures forall x :: x in r <==> x in roles && x !in present
  {
    if roles == [] then []
    else
      var rest := Missing(roles[1..], present);
      if roles[0] !in present then [roles[0]] + rest else rest
  }

  function Hashes(xs: seq<Statement>, ctx: Context): (r: seq<string>)
    ensures |r| == |xs| && forall i :: 0 <= i < |r| ==> r[i] == ctx.statementHash(Payload(xs[i]))
  {
    seq(|xs|, i requires 0 <= i < |xs| => ctx.statementHash(Payload(xs[i])))
  }

  function Earliest(xs: seq<Statement>): (t: int)
    requires xs != []
    ensures (exists i :: 0 <= i < |xs| && xs[i].signedAt == t) && forall i :: 0 <= i < |xs| ==> t <= xs[i].signedAt
  {
    if |xs| == 1 then xs[0].signedAt
    else
      var rest := Earliest(xs[1..]);
      assert forall i :: 0 <= i < |xs[1..]| ==> xs[1..][i] == xs[i + 1];
      if xs[0].signedAt < rest then xs[0].signedAt else rest
  }

  predicate CoolingOff(approving: seq<Statement>, ctx: Context) {
    ctx.policy.coolingOff > 0 && approving != [] && ctx.now < Earliest(approving) + ctx.policy.coolingOff
  }

  /** The decision fields, from the approving and the dissenting statements. */
  function Verdict(approving: seq<Statement>, dissenting: seq<Statement>, ctx: Context): Outcome {
    var missing := Ordering.Sort(Missing(ctx.policy.requiredRoles, RolesOf(approving)));
    Outcome(
      && |approving| >= ctx.policy.requiredApprovals && missing == []
      && !(ctx.policy.vetoOnDissent && dissenting != [])
      && !CoolingOff(approving, ctx),
      |approving|, IdsOf(approving), IdsOf(dissenting), missing, ctx.setHash(Ordering.Sort(Hashes(approving, ctx))))
  }

  function Votes(xs: seq<Statement>, decision: Decision): seq<Statement> {
    Ordering.SortBy(Voting(WinnersOf(xs, Ids(xs)), decision), ApproverId)
  }

  function Decide(statements: seq<Statement>, ctx: Context): Outcome {
    var survivors := Survivors(statements, ctx);
    Verdict(Votes(survivors, Approve), Votes(survivors, Dissent), ctx)
  }

  function Refused(statements: seq<Statement>, ctx: Context): seq<(string, Reason)> {
    if statements == [] then []
    else
      var front := Refused(statements[..|statements| - 1], ctx);
      var last := statements[|statements| - 1];
      var reason := RejectReason(last, ctx);
      if reason.Some? then front + [(last.statementId, reason.value)] else front
  }

  function Rejected(statements: seq<Statement>, ctx: Context): seq<(string, Reason)> {
    var survivors := Survivors(statements, ctx);
    Refused(statements, ctx) + SupersededOf(survivors, Ids(survivors))
  }

  /** Splits the statements into survivors and refused ones. */
  method Screen(statements: seq<Statement>, ctx: Context)
    returns (survivors: seq<Statement>, rejected: seq<(string, Reason)>)
    ensures survivors == Survivors(statements, ctx) && rejected == Refused(statements, ctx)
  {
    survivors, rejected := [], [];
    for i := 0 to |statements|
      invariant survivors == Survivors(statements[..i], ctx) && rejected == Refused(statements[..i], ctx)
    {
      assert statements[..i + 1][..i] == statements[..i];
      var reason := RejectReason(statements[i], ctx);
      if reason.Some? {
        rejected := rejected + [(statements[i].statementId, reason.value)];
      } else {
        survivors := survivors + [statements[i]];
      }
    }
    assert statements[..|statements|] == statements;
  }

  method EvaluateQuorum(statements: seq<Statement>, ctx: Context) returns (r: Result<QuorumResult, Error>)
    ensures r.Err? <==> |statements| > ctx.policy.maxStatements
    ensures r.Ok? ==> r.value == QuorumResult(Decide(statements, ctx), Rejected(statements, ctx))
  {
    if |statements| > ctx.policy.maxStatements {
      return Err(BatchTooLarge);
    }
    var survivors, rejected := Screen(statements, ctx);
    var order, authoritative, superseded := SelectAuthoritative(survivors);
    rejected := rejected + superseded;
    var winners := seq(|order|, i requires 0 <= i < |order| && order[i] in authoritative => authoritative[order[i]]);
    assert winners == WinnersOf(survivors, order);
    var outcome := TallyVotes(winners, ctx);
    return Ok(QuorumResult(outcome, rejected));
  }

  /** Sorts the winners into votes and works out the decision, withdrawing it on a veto and during
      the cooling-off period. */
  method TallyVotes(winners: seq<Statement>, ctx: Context) returns (r: Outcome)
    ensures r == Verdict(Ordering.SortBy(Voting(winners, Approve), ApproverId),
                         Ordering.SortBy(Voting(winners, Dissent), ApproverId), ctx)
  {
    var approving := Ordering.SortBy(Voting(winners, Approve), ApproverId);
    var dissenting := Ordering.SortBy(Voting(winners, Dissent), ApproverId);
    var missing := Ordering.Sort(Missing(ctx.policy.requiredRoles, RolesOf(approving)));
    var satisfied := |approving| >= ctx.policy.requiredApprovals && missing == [];
    if ctx.policy.vetoOnDissent && dissenting != [] {
      satisfied := false;
    }
    if satisfied && ctx.policy.coolingOff > 0 && approving != [] {
      var readyAt := Earliest(approving) + ctx.policy.coolingOff;
      if ctx.now < readyAt {
        satisfied := false;
      }
    }
    var setHash := ctx.setHash(Ordering.Sort(Hashes(approving, ctx)));
    return Outcome(satisfied, |approving|, IdsOf(approving), IdsOf(dissenting), missing, setHash);
  }
}
