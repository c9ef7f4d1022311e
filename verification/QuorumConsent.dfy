/** Who stands behind a satisfied quorum, and that more consent never withdraws it. */
module QuorumConsent {
  import opened Wrappers
  import opened Principals
  import opened Quorum
  import opened QuorumTheorems
  import Ordering

  // ---------- the decision in terms of the approvers ----------

  ghost function Voters(xs: seq<Statement>, decision: Decision): set<string> {
    set id | id in Ids(xs) && Kept(xs, id).decision == decision
  }

  ghost predicate RoleHeld(xs: seq<Statement>, role: string) {
    exists id :: id in Voters(xs, Approve) && Kept(xs, id).role == Some(role)
  }

  ghost predicate SomeoneCooled(xs: seq<Statement>, ctx: Context) {
    exists id :: id in Voters(xs, Approve) && Kept(xs, id).signedAt + ctx.policy.coolingOff <= ctx.now
  }

  /** Enough distinct approvers, every required role among them, no dissent where dissent vetoes, and
      the first of the approvals old enough. */
  ghost predicate Met(xs: seq<Statement>, ctx: Context) {
    && |Voters(xs, Approve)| >= ctx.policy.requiredApprovals
    && (forall i :: 0 <= i < |ctx.policy.requiredRoles| ==> RoleHeld(xs, ctx.policy.requiredRoles[i]))
    && (ctx.policy.vetoOnDissent ==> Voters(xs, Dissent) == {})
    && (ctx.policy.coolingOff > 0 && Voters(xs, Approve) != {} ==> SomeoneCooled(xs, ctx))
  }

  lemma VoterIsListed(xs: seq<Statement>, id: string, decision: Decision)
    ensures id in Voters(xs, decision) <==> id in IdsOf(Votes(xs, decision))
  {
    var votes := Votes(xs, decision);
    if id in IdsOf(votes) {
      var i :| 0 <= i < |votes| && IdsOf(votes)[i] == id;
      VoteAt(xs, decision, i);
    }
    if id in Ids(xs) {
      VoterListed(xs, id, decision);
    }
  }

  lemma VotesCount(xs: seq<Statement>, decision: Decision)
    ensures |(set id | id in IdsOf(Votes(xs, decision)))| == |Votes(xs, decision)|
  {
    VotesSorted(xs, decision);
    IdsSortedDistinct(Votes(xs, decision));
    var ids := IdsOf(Votes(xs, decision));
    forall i, j | 0 <= i < j < |ids|
      ensures ids[i] != ids[j]
    {
      var identity := (s: string) => s;
      assert identity(ids[i]) != identity(ids[j]);
    }
    Ordering.DistinctSize(ids);
  }

  lemma VotersListed(xs: seq<Statement>, decision: Decision)
    ensures forall id :: id in Voters(xs, decision) <==> id in IdsOf(Votes(xs, decision))
    ensures |Voters(xs, decision)| == |Votes(xs, decision)|
    ensures Voters(xs, decision) == {} <==> Votes(xs, decision) == []
  {
    var voters, ids := Voters(xs, decision), IdsOf(Votes(xs, decision));
    forall id
      ensures id in voters <==> id in ids
    {
      VoterIsListed(xs, id, decision);
    }
    VotesCount(xs, decision);
    SetOfMembers(voters, ids);
  }

  lemma SetOfMembers(voters: set<string>, ids: seq<string>)
    requires forall id :: id in voters <==> id in ids
    ensures voters == set id | id in ids
    ensures |voters| == 0 <==> voters == {}
  {
  }

  lemma VoterAt(xs: seq<Statement>, decision: Decision, i: nat)
    requires i < |Votes(xs, decision)|
    ensures var s := Votes(xs, decision)[i];
            s.approver.id in Voters(xs, decision) && s == Kept(xs, s.approver.id)
  {
    VoteAt(xs, decision, i);
    VotersListed(xs, decision);
    assert IdsOf(Votes(xs, decision))[i] in IdsOf(Votes(xs, decision));
  }

  lemma VoteOf(xs: seq<Statement>, decision: Decision, id: string) returns (i: nat)
    requires id in Voters(xs, decision)
    ensures i < |Votes(xs, decision)| && Votes(xs, decision)[i] == Kept(xs, id)
  {
    VotersListed(xs, decision);
    i :| 0 <= i < |Votes(xs, decision)| && IdsOf(Votes(xs, decision))[i] == id;
    VoteAt(xs, decision, i);
  }

  lemma RolesHeld(xs: seq<Statement>, role: string)
    ensures role in RolesOf(Votes(xs, Approve)) <==> RoleHeld(xs, role)
  {
    if role in RolesOf(Votes(xs, Approve)) {
      RoleIsHeld(xs, role);
    }
    if RoleHeld(xs, role) {
      var id :| id in Voters(xs, Approve) && Kept(xs, id).role == Some(role);
      var i := VoteOf(xs, Approve, id);
      assert Votes(xs, Approve)[i] in Votes(xs, Approve);
    }
  }

  lemma RoleIsHeld(xs: seq<Statement>, role: string)
    requires role in RolesOf(Votes(xs, Approve))
    ensures RoleHeld(xs, role)
  {
    var votes := Votes(xs, Approve);
    var s :| s in votes && s.role == Some(role);
    var i :| 0 <= i < |votes| && votes[i] == s;
    VoterAt(xs, Approve, i);
  }

  lemma NothingMissing(xs: seq<Statement>, ctx: Context)
    ensures Decide(xs, ctx).missingRoles == [] <==>
              forall i :: 0 <= i < |ctx.policy.requiredRoles| ==>
                  RoleHeld(Survivors(xs, ctx), ctx.policy.requiredRoles[i])
  {
    var survivors, roles := Survivors(xs, ctx), ctx.policy.requiredRoles;
    var missing := Missing(roles, RolesOf(Votes(survivors, Approve)));
    Ordering.SortByKeeps(missing, (s: string) => s);
    forall i | 0 <= i < |roles|
      ensures roles[i] in missing <==> !RoleHeld(survivors, roles[i])
    {
      RolesHeld(survivors, roles[i]);
    }
    if missing != [] {
      assert missing[0] in missing;
      var i :| 0 <= i < |roles| && roles[i] == missing[0];
    }
  }

  lemma CooledExactly(xs: seq<Statement>, ctx: Context)
    requires Voters(xs, Approve) != {}
    ensures ctx.now < Earliest(Votes(xs, Approve)) + ctx.policy.coolingOff <==> !SomeoneCooled(xs, ctx)
  {
    VotersListed(xs, Approve);
    var votes := Votes(xs, Approve);
    var first :| 0 <= first < |votes| && votes[first].signedAt == Earliest(votes);
    VoterAt(xs, Approve, first);
    if SomeoneCooled(xs, ctx) {
      var id :| id in Voters(xs, Approve) && Kept(xs, id).signedAt + ctx.policy.coolingOff <= ctx.now;
      var i := VoteOf(xs, Approve, id);
      assert Earliest(votes) <= votes[i].signedAt;
    }
  }

  /** The evaluation is satisfied exactly when the quorum is met. */
  lemma SatisfiedExactlyWhenMet(xs: seq<Statement>, ctx: Context)
    ensures Decide(xs, ctx).satisfied <==> Met(Survivors(xs, ctx), ctx)
  {
    var survivors := Survivors(xs, ctx);
    VotersListed(survivors, Approve);
    VotersListed(survivors, Dissent);
    NothingMissing(xs, ctx);
    if Voters(survivors, Approve) != {} {
      CooledExactly(survivors, ctx);
    }
  }

  ghost predicate Listed(ids: seq<string>, members: set<string>) {
    && Ordering.SortedBy(ids, (s: string) => s) && Ordering.DistinctBy(ids, (s: string) => s)
    && forall id :: id in ids <==> id in members
  }

  /** The other decision fields: the approving and the dissenting approvers, and the required roles
      that no approval holds, each sorted. */
  lemma FieldsList(xs: seq<Statement>, ctx: Context)
    ensures var survivors, outcome := Survivors(xs, ctx), Decide(xs, ctx);
            && Listed(outcome.approvingIds, Voters(survivors, Approve))
               && outcome.approvingCount == |Voters(survivors, Approve)|
            && Listed(outcome.dissentingIds, Voters(survivors, Dissent))
            && Ordering.SortedBy(outcome.missingRoles, (s: string) => s)
            && (forall role :: role in outcome.missingRoles <==>
                  role in ctx.policy.requiredRoles && !RoleHeld(survivors, role))
  {
    var survivors := Survivors(xs, ctx);
    VotesList(survivors, Approve);
    VotesList(survivors, Dissent);
    VotersListed(survivors, Approve);
    var missing := Missing(ctx.policy.requiredRoles, RolesOf(Votes(survivors, Approve)));
    Ordering.SortByKeeps(missing, (s: string) => s);
    forall role
      ensures role in Decide(xs, ctx).missingRoles <==> role in ctx.policy.requiredRoles && !RoleHeld(survivors, role)
    {
      RolesHeld(survivors, role);
      assert role in Decide(xs, ctx).missingRoles <==> role in multiset(missing);
    }
  }

  lemma VotesList(xs: seq<Statement>, decision: Decision)
    ensures Listed(IdsOf(Votes(xs, decision)), Voters(xs, decision))
  {
    VotesSorted(xs, decision);
    IdsSortedDistinct(Votes(xs, decision));
    VotersListed(xs, decision);
  }

  // ---------- soundness ----------

  /** A statement, for or against, of this very manifest and policy by an eligible principal who is no
      agent, validly signed and not expired. */
  ghost predicate Genuine(s: Statement, ctx: Context) {
    && s.manifestHash == ctx.manifestHash && s.policyHash == ctx.policyHash && Eligible(s, ctx)
    && ctx.signatureFault(s).None? && ctx.now <= s.expiresAt
  }

  ghost predicate Eligible(s: Statement, ctx: Context) {
    && s.approver.kind != Agent
    && (ctx.policy.forbidProposer ==> s.approver.id != ctx.proposer)
    && (ctx.policy.forbidSubject ==> s.approver.id != ctx.subject)
  }

  /** A statement of either kind survives exactly when it is genuine, and is otherwise rejected for the
      first of the conditions that fails. */
  lemma SurvivesExactlyWhenGenuine(s: Statement, ctx: Context)
    ensures RejectReason(s, ctx).None? <==> Genuine(s, ctx)
    ensures RejectReason(s, ctx) == Some(ManifestMismatch) <==> s.manifestHash != ctx.manifestHash
    ensures RejectReason(s, ctx) == Some(PolicyMismatch) <==>
              s.manifestHash == ctx.manifestHash && s.policyHash != ctx.policyHash
    ensures RejectReason(s, ctx) in {Some(AgentApprover), Some(ProposerApprover), Some(SubjectApprover)} <==>
              s.manifestHash == ctx.manifestHash && s.policyHash == ctx.policyHash && !Eligible(s, ctx)
    ensures RejectReason(s, ctx) == Some(AgentApprover) ==> s.approver.kind == Agent
    ensures RejectReason(s, ctx) == Some(ProposerApprover) ==>
              s.approver.kind != Agent && ctx.policy.forbidProposer && s.approver.id == ctx.proposer
    ensures RejectReason(s, ctx) == Some(SubjectApprover) ==>
              && s.approver.kind != Agent && !(ctx.policy.forbidProposer && s.approver.id == ctx.proposer)
              && ctx.policy.forbidSubject && s.approver.id == ctx.subject
    ensures forall why :: RejectReason(s, ctx) == Some(BadSignature(why)) <==>
                            && s.manifestHash == ctx.manifestHash && s.policyHash == ctx.policyHash && Eligible(s, ctx)
                            && ctx.signatureFault(s) == Some(why)
    ensures RejectReason(s, ctx) == Some(Expired) <==>
              && s.manifestHash == ctx.manifestHash && s.policyHash == ctx.policyHash && Eligible(s, ctx)
              && ctx.signatureFault(s).None? && s.expiresAt < ctx.now
    ensures RejectReason(s, ctx) != Some(Superseded)
  {
  }

  /** The approver's own last word among the genuine statements: none is signed later, and of those
      signed in the same instant none has an id that comes after. */
  ghost predicate LastWord(xs: seq<Statement>, s: Statement, ctx: Context) {
    forall t :: t in xs && t.approver.id == s.approver.id && Genuine(t, ctx) ==>
      || t.signedAt < s.signedAt
      || (t.signedAt == s.signedAt
          && (t.statementId == s.statementId || Ordering.ComesBefore(t.statementId, s.statementId)))
  }

  ghost predicate StandsBehind(xs: seq<Statement>, id: string, decision: Decision, ctx: Context) {
    exists s :: s in xs && s.approver.id == id && s.decision == decision && Genuine(s, ctx) && LastWord(xs, s, ctx)
  }

  /** Behind a satisfied quorum stand at least the required number of distinct approvers, none of them
      an agent, all eligible, whose latest valid statement approves. */
  lemma SatisfiedQuorumIsGenuine(xs: seq<Statement>, ctx: Context) returns (ids: set<string>)
    requires Decide(xs, ctx).satisfied
    ensures |ids| >= ctx.policy.requiredApprovals && |ids| == Decide(xs, ctx).approvingCount
    ensures forall id :: id in ids <==> id in Decide(xs, ctx).approvingIds
    ensures forall id :: id in ids ==> StandsBehind(xs, id, Approve, ctx)
  {
    var survivors := Survivors(xs, ctx);
    ids := Voters(survivors, Approve);
    VotersListed(survivors, Approve);
    forall id | id in ids
      ensures StandsBehind(xs, id, Approve, ctx)
    {
      VoterStandsBehind(xs, id, Approve, ctx);
    }
  }

  lemma VoterStandsBehind(xs: seq<Statement>, id: string, decision: Decision, ctx: Context)
    requires id in Voters(Survivors(xs, ctx), decision)
    ensures StandsBehind(xs, id, decision, ctx)
  {
    var survivors := Survivors(xs, ctx);
    var s := Kept(survivors, id);
    KeptIsLatest(survivors, id);
    SurvivesExactlyWhenGenuine(s, ctx);
    forall t | t in xs && t.approver.id == s.approver.id && Genuine(t, ctx)
      ensures || t.signedAt < s.signedAt
              || (t.signedAt == s.signedAt
                  && (t.statementId == s.statementId || Ordering.ComesBefore(t.statementId, s.statementId)))
    {
      SurvivesExactlyWhenGenuine(t, ctx);
      assert !Before(s, t);
      Ordering.LeqExactly(t.statementId, s.statementId);
    }
  }

  /** Every approver in the outcome, on either side, has a genuine last word on that side; nobody is on
      both sides; and whoever has made a genuine statement at all is on one of them. */
  lemma EveryVoteIsGenuine(xs: seq<Statement>, ctx: Context, id: string)
    ensures var outcome := Decide(xs, ctx);
            && (id in outcome.approvingIds ==> StandsBehind(xs, id, Approve, ctx))
            && (id in outcome.dissentingIds ==> StandsBehind(xs, id, Dissent, ctx))
            && !(id in outcome.approvingIds && id in outcome.dissentingIds)
            && ((exists s :: s in xs && s.approver.id == id && Genuine(s, ctx)) <==>
                  id in outcome.approvingIds || id in outcome.dissentingIds)
  {
    var survivors := Survivors(xs, ctx);
    FieldsList(xs, ctx);
    if id in Voters(survivors, Approve) {
      VoterStandsBehind(xs, id, Approve, ctx);
    }
    if id in Voters(survivors, Dissent) {
      VoterStandsBehind(xs, id, Dissent, ctx);
    }
    if s :| s in xs && s.approver.id == id && Genuine(s, ctx) {
      SurvivesExactlyWhenGenuine(s, ctx);
      assert s in Group(survivors, id);
    }
  }

  ghost predicate HashedApproval(xs: seq<Statement>, ctx: Context, h: string) {
    exists id :: id in Voters(xs, Approve) && h == ctx.statementHash(Kept(xs, id).(signature := None))
  }

  /** The approval set hash covers, sorted, the hashes of the approving statements without their
      signatures, one for every approver, and nothing else. */
  lemma SetHashCovers(xs: seq<Statement>, ctx: Context) returns (hashes: seq<string>)
    ensures Decide(xs, ctx).approvalSetHash == ctx.setHash(hashes)
    ensures Ordering.SortedBy(hashes, (s: string) => s) && |hashes| == Decide(xs, ctx).approvingCount
    ensures forall h :: h in hashes <==> HashedApproval(Survivors(xs, ctx), ctx, h)
  {
    var survivors := Survivors(xs, ctx);
    var unsorted := Hashes(Votes(survivors, Approve), ctx);
    hashes := Ordering.Sort(unsorted);
    Ordering.SortByKeeps(unsorted, (s: string) => s);
    forall h
      ensures h in hashes <==> HashedApproval(survivors, ctx, h)
    {
      assert h in hashes <==> h in multiset(unsorted);
      HashListed(survivors, ctx, h);
    }
  }

  lemma HashListed(xs: seq<Statement>, ctx: Context, h: string)
    ensures h in Hashes(Votes(xs, Approve), ctx) <==> HashedApproval(xs, ctx, h)
  {
    var hashes := Hashes(Votes(xs, Approve), ctx);
    if h in hashes {
      var i :| 0 <= i < |hashes| && hashes[i] == h;
      VoterAt(xs, Approve, i);
    }
    if HashedApproval(xs, ctx, h) {
      var id :| id in Voters(xs, Approve) && h == ctx.statementHash(Kept(xs, id).(signature := None));
      var i := VoteOf(xs, Approve, id);
      assert hashes[i] == h;
    }
  }

  // ---------- more statements ----------

  lemma LastCopyLoses(a: seq<Statement>, c: Statement)
    requires c in a
    ensures Winner(a + [c]) == Winner(a)
  {
    WinnerIsLatest(a);
    assert (a + [c])[..|a|] == a;
  }

  lemma {:induction false} LaterCopyLoses(a: seq<Statement>, c: Statement, b: seq<Statement>)
    requires c in a
    ensures Winner(a + [c] + b) == Winner(a + b)
    decreases |b|
  {
    if b == [] {
      LastCopyLoses(a, c);
      assert a + [c] + b == a + [c] && a + b == a;
    } else {
      var front := b[..|b| - 1];
      LaterCopyLoses(a, c, front);
      assert (a + [c] + b)[..|a + [c] + b| - 1] == a + [c] + front;
      assert (a + b)[..|a + b| - 1] == a + front;
    }
  }

  lemma CopyInGroup(s: seq<Statement>, t: seq<Statement>, id: string, a: seq<Statement>, b: seq<Statement>,
                    c: Statement)
    requires Group(s, id) == a + b && (c.approver.id == id ==> c in a)
    requires Group(t, id) == a + (if c.approver.id == id then [c] else []) + b
    ensures Group(s, id) != [] <==> Group(t, id) != []
    ensures Group(s, id) != [] ==> Kept(s, id) == Kept(t, id)
  {
    if c.approver.id == id {
      LaterCopyLoses(a, c, b);
    } else {
      assert a + [] + b == a + b;
    }
  }

  lemma CopyKeepsKept(xs: seq<Statement>, k: nat, c: Statement, id: string, ctx: Context)
    requires k <= |xs| && c in xs[..k] && RejectReason(c, ctx).None?
    ensures var s, t := Survivors(xs, ctx), Survivors(xs[..k] + [c] + xs[k..], ctx);
            && (Group(s, id) != [] <==> Group(t, id) != [])
            && (Group(s, id) != [] ==> Kept(s, id) == Kept(t, id))
  {
    GroupWithInsertion(xs, k, c, id, ctx);
    CopyInGroup(Survivors(xs, ctx), Survivors(xs[..k] + [c] + xs[k..], ctx), id,
                Group(Survivors(xs[..k], ctx), id), Group(Survivors(xs[k..], ctx), id), c);
  }

  /** An extra copy of a statement, anywhere after the original, never changes the decision: here no
      condition on ties is needed. */
  lemma LaterCopyChangesNothing(xs: seq<Statement>, k: nat, c: Statement, ctx: Context)
    requires k <= |xs| && c in xs[..k]
    ensures Decide(xs[..k] + [c] + xs[k..], ctx) == Decide(xs, ctx)
  {
    var longer := xs[..k] + [c] + xs[k..];
    if RejectReason(c, ctx).None? {
      forall id {
        CopyKeepsKept(xs, k, c, id, ctx);
      }
      assert KeptAlike(Survivors(xs, ctx), Survivors(longer, ctx));
      KeptDecide(xs, longer, ctx);
    } else {
      InvalidChangesNothing(xs, k, c, ctx);
    }
  }

  /** A statement that is rejected changes nothing wherever it stands. */
  lemma InvalidChangesNothing(xs: seq<Statement>, k: nat, s: Statement, ctx: Context)
    requires k <= |xs| && RejectReason(s, ctx).Some?
    ensures Decide(xs[..k] + [s] + xs[k..], ctx) == Decide(xs, ctx)
  {
    var a, b := xs[..k], xs[k..];
    assert xs == a + b;
    SurvivorsOfSum(a, b, ctx);
    SurvivorsOfSum(a, [s], ctx);
    SurvivorsOfSum(a + [s], b, ctx);
    assert Survivors([s], ctx) == [];
  }

  lemma NewVoter(xs: seq<Statement>, k: nat, s: Statement, id: string, ctx: Context)
    requires k <= |xs| && RejectReason(s, ctx).None?
    requires Group(Survivors(xs, ctx), s.approver.id) == []
    ensures var group := Group(Survivors(xs[..k] + [s] + xs[k..], ctx), id);
            group == if id == s.approver.id then [s] else Group(Survivors(xs, ctx), id)
  {
    GroupWithInsertion(xs, k, s, id, ctx);
  }

  /** One list of statements differs from another by a new approver's single approval. */
  ghost predicate GainsApproval(before: seq<Statement>, after: seq<Statement>, s: Statement) {
    && s.decision == Approve && Group(before, s.approver.id) == []
    && forall id :: Group(after, id) == if id == s.approver.id then [s] else Group(before, id)
  }

  lemma VotersGain(before: seq<Statement>, after: seq<Statement>, s: Statement)
    requires GainsApproval(before, after, s)
    ensures Voters(after, Approve) == Voters(before, Approve) + {s.approver.id}
    ensures Voters(after, Dissent) == Voters(before, Dissent)
  {
    assert Winner([s]) == s;
    forall id | id != s.approver.id
      ensures id in Ids(after) <==> id in Ids(before)
      ensures id in Ids(after) ==> Kept(after, id) == Kept(before, id)
    {
      assert Group(after, id) == Group(before, id);
    }
  }

  lemma KeptStays(before: seq<Statement>, after: seq<Statement>, s: Statement, id: string)
    requires GainsApproval(before, after, s) && id in Voters(before, Approve)
    ensures id in Voters(after, Approve) && Kept(after, id) == Kept(before, id)
  {
    assert Group(after, id) == Group(before, id);
  }

  lemma RoleStays(before: seq<Statement>, after: seq<Statement>, s: Statement, role: string)
    requires GainsApproval(before, after, s) && RoleHeld(before, role)
    ensures RoleHeld(after, role)
  {
    var id :| id in Voters(before, Approve) && Kept(before, id).role == Some(role);
    KeptStays(before, after, s, id);
  }

  lemma CooledStays(before: seq<Statement>, after: seq<Statement>, s: Statement, ctx: Context)
    requires GainsApproval(before, after, s) && SomeoneCooled(before, ctx)
    ensures SomeoneCooled(after, ctx)
  {
    var id :| id in Voters(before, Approve) && Kept(before, id).signedAt + ctx.policy.coolingOff <= ctx.now;
    KeptStays(before, after, s, id);
  }

  lemma MetGains(before: seq<Statement>, after: seq<Statement>, s: Statement, ctx: Context)
    requires GainsApproval(before, after, s) && Met(before, ctx) && ctx.policy.requiredApprovals >= 1
    ensures Met(after, ctx)
  {
    VotersGain(before, after, s);
    var roles := ctx.policy.requiredRoles;
    forall i | 0 <= i < |roles|
      ensures RoleHeld(after, roles[i])
    {
      RoleStays(before, after, s, roles[i]);
    }
    assert |Voters(before, Approve)| > 0;
    if ctx.policy.coolingOff > 0 {
      CooledStays(before, after, s, ctx);
    }
    assert |Voters(after, Approve)| >= |Voters(before, Approve)|;
  }

  lemma InsertionGains(xs: seq<Statement>, k: nat, s: Statement, ctx: Context)
    requires k <= |xs| && RejectReason(s, ctx).None? && s.decision == Approve
    requires Group(Survivors(xs, ctx), s.approver.id) == []
    ensures GainsApproval(Survivors(xs, ctx), Survivors(xs[..k] + [s] + xs[k..], ctx), s)
  {
    var longer := xs[..k] + [s] + xs[k..];
    forall id
      ensures Group(Survivors(longer, ctx), id) == if id == s.approver.id then [s] else Group(Survivors(xs, ctx), id)
    {
      NewVoter(xs, k, s, id, ctx);
    }
  }

  /** A valid approval by an approver not yet present never turns satisfied into unsatisfied, the
      cooling-off period included. */
  lemma MoreConsentKeepsSatisfied(xs: seq<Statement>, k: nat, s: Statement, ctx: Context)
    requires k <= |xs| && RejectReason(s, ctx).None? && s.decision == Approve
    requires Group(Survivors(xs, ctx), s.approver.id) == []
    requires Decide(xs, ctx).satisfied && ctx.policy.requiredApprovals >= 1
    ensures Decide(xs[..k] + [s] + xs[k..], ctx).satisfied
  {
    var longer := xs[..k] + [s] + xs[k..];
    SatisfiedExactlyWhenMet(xs, ctx);
    SatisfiedExactlyWhenMet(longer, ctx);
    InsertionGains(xs, k, s, ctx);
    MetGains(Survivors(xs, ctx), Survivors(longer, ctx), s, ctx);
  }

  // ---------- a tie whose order matters ----------

  const EasyContext := Context(
    "m", "p", Policy(1, [], true, true, true, 0, 100), "proposer", "subject", 5,
    (s: Statement) => None, (s: Statement) => s.nonce, (hashes: seq<string>) => "")

  const Consent := Statement("s", "m", "p", Principal("ann", Human, None), None, Approve, None, 1, 9, "x", "k",
                             Some("sig"))
  const Objection := Statement("s", "m", "p", Principal("ann", Human, None), None, Dissent, None, 1, 9, "y", "k",
                               Some("sig"))

  /** One approver signs two statements with one id in the same instant, one for and one against:
      the decision is whichever was submitted first, although the evaluation is promised to be
      independent of the order. */
  lemma TieDecidedByOrder()
    ensures Decide([Consent, Objection], EasyContext).satisfied
    ensures !Decide([Objection, Consent], EasyContext).satisfied
  {
    Ordering.LeqReflexive("s");
    PairDecides(Consent, Objection);
    PairDecides(Objection, Consent);
  }

  lemma PairGroups(s: Statement, t: Statement, id: string)
    requires s.approver.id == t.approver.id && !Before(s, t)
    ensures Group([s, t], id) == if id == s.approver.id then [s, t] else []
    ensures Winner([s, t]) == s
  {
    assert [s, t][..1] == [s] && [s][..0] == [];
    assert Group([s], id) == if id == s.approver.id then [s] else [];
  }

  lemma OneVoter(xs: seq<Statement>, s: Statement)
    requires Group(xs, s.approver.id) != [] && Winner(Group(xs, s.approver.id)) == s
    requires forall id :: id != s.approver.id ==> Group(xs, id) == []
    ensures forall d :: Voters(xs, d) == if d == s.decision then {s.approver.id} else {}
  {
    assert forall id :: id in Ids(xs) <==> id == s.approver.id;
  }

  lemma PairMet(s: Statement, t: Statement)
    requires s.approver.id == t.approver.id && !Before(s, t)
    ensures Met([s, t], EasyContext) <==> s.decision == Approve
  {
    forall id {
      PairGroups(s, t, id);
    }
    OneVoter([s, t], s);
  }

  lemma PairSurvives(s: Statement, t: Statement)
    requires RejectReason(s, EasyContext).None? && RejectReason(t, EasyContext).None?
    ensures Survivors([s, t], EasyContext) == [s, t]
  {
    SurvivorsOfSum([s], [t], EasyContext);
    assert [s] + [t] == [s, t];
  }

  lemma PairDecides(s: Statement, t: Statement)
    requires RejectReason(s, EasyContext).None? && RejectReason(t, EasyContext).None?
    requires s.approver.id == t.approver.id && !Before(s, t)
    ensures Decide([s, t], EasyContext).satisfied <==> s.decision == Approve
  {
    PairSurvives(s, t);
    PairMet(s, t);
    SatisfiedExactlyWhenMet([s, t], EasyContext);
  }
}
