/** Attenuation of execution grants: a child may only narrow its parent, and chains of delegation keep
    that order from the root to the leaf. */
module Delegation {
  import opened Wrappers
  import opened Amounts
  import opened Principals

  /** None is unrestricted. */
  type AllowList = Option<set<string>>

  datatype Scope = Scope(
    targetResources: AllowList, recipients: AllowList, maxAmount: Option<Money>,
    allowedFields: AllowList, environments: AllowList)

  datatype ExecutionGrant = ExecutionGrant(
    grantId: string, manifestHash: Option<string>, envelopeHash: Option<string>, graphHash: Option<string>,
    policyHash: Option<string>, approvalSetHash: Option<string>, budgetId: Option<string>,
    issuer: Principal, subject: Principal, audience: set<string>, effectTypes: set<string>, scope: Scope,
    notBefore: int, expiresAt: int, maxUses: int, parentId: Option<string>)

  datatype Error =
    | Widening(dimension: Dimension) | Incomparable
    | IssuerNotAuthorized | InvalidGrant
    | EmptyChain | NotARoot | BadSignature | NotYetValid | Expired | Revoked | WrongParent

  datatype Dimension =
    | ExpiresAt | NotBefore | MaxUses | Audience | EffectTypes | TargetResources | Recipients | MaxAmount
    | AllowedFields | Environments | BudgetBinding

  // ---------- one step of attenuation ----------

  function ListNarrower(child: AllowList, parent: AllowList, dimension: Dimension): Option<Error> {
    if parent.None? then None
    else if child.None? then Some(Widening(dimension))
    else if !(child.value <= parent.value) then Some(Widening(dimension))
    else None
  }

  function AmountNarrower(child: Option<Money>, parent: Option<Money>): Option<Error> {
    if parent.None? then None
    else if child.None? then Some(Widening(MaxAmount))
    else if child.value.currency != parent.value.currency then Some(Incomparable)
    else if child.value.minorUnits > parent.value.minorUnits then Some(Widening(MaxAmount))
    else None
  }

  function First(a: Option<Error>, b: Option<Error>): Option<Error> {
    if a.Some? then a else b
  }

  function ScopeNarrower(child: Scope, parent: Scope): Option<Error> {
    First(ListNarrower(child.targetResources, parent.targetResources, TargetResources),
    First(ListNarrower(child.recipients, parent.recipients, Recipients),
    First(AmountNarrower(child.maxAmount, parent.maxAmount),
    First(ListNarrower(child.allowedFields, parent.allowedFields, AllowedFields),
          ListNarrower(child.environments, parent.environments, Environments)))))
  }

  function BudgetNarrower(child: Option<string>, parent: Option<string>): Option<Error> {
    if parent.Some? && child != parent then Some(Widening(BudgetBinding)) else None
  }

  function NarrowCheck(child: ExecutionGrant, parent: ExecutionGrant): Option<Error> {
    if child.expiresAt > parent.expiresAt then Some(Widening(ExpiresAt))
    else if child.notBefore < parent.notBefore then Some(Widening(NotBefore))
    else if child.maxUses > parent.maxUses then Some(Widening(MaxUses))
    else
      First(ListNarrower(Some(child.audience), Some(parent.audience), Audience),
      First(ListNarrower(Some(child.effectTypes), Some(parent.effectTypes), EffectTypes),
      First(ScopeNarrower(child.scope, parent.scope),
            BudgetNarrower(child.budgetId, parent.budgetId))))
  }

  predicate Narrower(child: ExecutionGrant, parent: ExecutionGrant) {
    NarrowCheck(child, parent).None?
  }

  lemma NarrowerReflexive(g: ExecutionGrant)
    ensures Narrower(g, g)
  {
  }

  lemma NarrowerTransitive(a: ExecutionGrant, b: ExecutionGrant, c: ExecutionGrant)
    requires Narrower(a, b) && Narrower(b, c)
    ensures Narrower(a, c)
  {
    ScopeTransitive(a.scope, b.scope, c.scope);
  }

  lemma ScopeTransitive(a: Scope, b: Scope, c: Scope)
    requires ScopeNarrower(a, b).None? && ScopeNarrower(b, c).None?
    ensures ScopeNarrower(a, c).None?
  {
  }

  // ---------- what narrowing means ----------

  /** One use of authority: when, by which service, for which kind of effect, on what, to whom, for how
      much, touching which field, in which environment. */
  datatype Request = Request(
    now: int, audience: string, effectType: string, resource: string, recipient: string, amount: Money,
    field: string, environment: string)

  predicate Allows(list: AllowList, x: string) {
    list.None? || x in list.value
  }

  predicate WithinCap(cap: Option<Money>, amount: Money) {
    cap.None? || (amount.currency == cap.value.currency && amount.minorUnits <= cap.value.minorUnits)
  }

  predicate ScopePermits(s: Scope, r: Request) {
    && Allows(s.targetResources, r.resource) && Allows(s.recipients, r.recipient)
    && WithinCap(s.maxAmount, r.amount) && Allows(s.allowedFields, r.field) && Allows(s.environments, r.environment)
  }

  predicate Permits(g: ExecutionGrant, r: Request) {
    && g.notBefore <= r.now <= g.expiresAt && r.audience in g.audience && r.effectType in g.effectTypes
    && ScopePermits(g.scope, r)
  }

  /** What the grant and scope constructors guarantee. */
  predicate WellFormedList(list: AllowList) {
    list.Some? ==> list.value != {}
  }

  predicate WellFormedScope(s: Scope) {
    && WellFormedList(s.targetResources) && WellFormedList(s.recipients)
    && WellFormedList(s.allowedFields) && WellFormedList(s.environments)
  }

  predicate WellFormedGrant(g: ExecutionGrant) {
    g.audience != {} && g.effectTypes != {} && g.maxUses >= 1 && g.notBefore < g.expiresAt && WellFormedScope(g.scope)
  }

  ghost predicate PermitsNoMore(child: ExecutionGrant, parent: ExecutionGrant) {
    forall r :: Permits(child, r) ==> Permits(parent, r)
  }

  ghost function Member(list: AllowList): (x: string)
    requires WellFormedList(list)
    ensures Allows(list, x)
  {
    if list.None? then "" else var x :| x in list.value; x
  }

  /** A use the grant permits. */
  ghost function SampleUse(g: ExecutionGrant): (r: Request)
    requires WellFormedGrant(g)
    ensures Permits(g, r)
  {
    var s := g.scope;
    Request(g.notBefore, Member(Some(g.audience)), Member(Some(g.effectTypes)), Member(s.targetResources),
            Member(s.recipients), if s.maxAmount.Some? then s.maxAmount.value else Money("", 0),
            Member(s.allowedFields), Member(s.environments))
  }

  /** A list that is not narrower allows something the other does not. */
  ghost function Extra(child: AllowList, parent: AllowList): (x: string)
    requires WellFormedList(child) && ListNarrower(child, parent, Audience).Some?
    ensures Allows(child, x) && !Allows(parent, x)
  {
    if child.None? then Fresh(parent.value) else var x :| x in child.value && x !in parent.value; x
  }

  /** A string longer than every member of a set. */
  ghost function Fresh(s: set<string>): (x: string)
    ensures x !in s
  {
    var n := Longest(s);
    seq(n + 1, i => 'x')
  }

  ghost function Longest(s: set<string>): (n: nat)
    ensures forall x :: x in s ==> |x| <= n
    decreases |s|
  {
    if s == {} then 0
    else
      var x :| x in s;
      var rest := Longest(s - {x});
      if |x| > rest then |x| else rest
  }

  /** An amount within one cap and beyond the other. */
  ghost function ExtraAmount(child: Option<Money>, parent: Option<Money>): (m: Money)
    requires AmountNarrower(child, parent).Some?
    ensures WithinCap(child, m) && !WithinCap(parent, m)
  {
    if child.Some? then child.value else Money(parent.value.currency, parent.value.minorUnits + 1)
  }

  /** A scope that is not narrower permits a use the other forbids. */
  lemma WiderScopeShows(child: ExecutionGrant, parent: ExecutionGrant) returns (bad: Request)
    requires WellFormedGrant(child) && ScopeNarrower(child.scope, parent.scope).Some?
    ensures Permits(child, bad) && !Permits(parent, bad)
  {
    var r, c, p := SampleUse(child), child.scope, parent.scope;
    if ListNarrower(c.targetResources, p.targetResources, TargetResources).Some? {
      bad := r.(resource := Extra(c.targetResources, p.targetResources));
    } else if ListNarrower(c.recipients, p.recipients, Recipients).Some? {
      bad := r.(recipient := Extra(c.recipients, p.recipients));
    } else if AmountNarrower(c.maxAmount, p.maxAmount).Some? {
      bad := r.(amount := ExtraAmount(c.maxAmount, p.maxAmount));
    } else if ListNarrower(c.allowedFields, p.allowedFields, AllowedFields).Some? {
      bad := r.(field := Extra(c.allowedFields, p.allowedFields));
    } else {
      bad := r.(environment := Extra(c.environments, p.environments));
    }
  }

  lemma ListsExactly(child: ExecutionGrant, parent: ExecutionGrant)
    requires WellFormedGrant(child) && PermitsNoMore(child, parent)
    ensures child.audience <= parent.audience && child.effectTypes <= parent.effectTypes
    ensures child.expiresAt <= parent.expiresAt && parent.notBefore <= child.notBefore
  {
    var r := SampleUse(child);
    forall x | x in child.audience
      ensures x in parent.audience
    {
      assert Permits(child, r.(audience := x));
    }
    forall x | x in child.effectTypes
      ensures x in parent.effectTypes
    {
      assert Permits(child, r.(effectType := x));
    }
    assert Permits(child, r.(now := child.expiresAt)) && Permits(child, r.(now := child.notBefore));
  }

  /** The attenuation check decides exactly whether the child permits no use that the parent does not,
      grants no more uses, and keeps the parent's budget. */
  lemma NarrowerExactly(child: ExecutionGrant, parent: ExecutionGrant)
    requires WellFormedGrant(child)
    ensures Narrower(child, parent) <==>
              && PermitsNoMore(child, parent) && child.maxUses <= parent.maxUses
              && (parent.budgetId.Some? ==> child.budgetId == parent.budgetId)
  {
    if ScopeNarrower(child.scope, parent.scope).Some? {
      var bad := WiderScopeShows(child, parent);
    } else if PermitsNoMore(child, parent) {
      ListsExactly(child, parent);
    }
  }

  // ---------- chains ----------

  /** What a chain is verified against: the signatures that check out, the revoked ids, the time. */
  datatype Setting = Setting(signatureOk: ExecutionGrant -> bool, revoked: set<string>, now: int, leeway: nat)

  function WindowCheck(g: ExecutionGrant, st: Setting): Option<Error> {
    if st.now < g.notBefore - st.leeway then Some(NotYetValid)
    else if st.now > g.expiresAt + st.leeway then Some(Expired)
    else None
  }

  function GrantCheck(g: ExecutionGrant, st: Setting): Option<Error> {
    if !st.signatureOk(g) then Some(BadSignature)
    else if WindowCheck(g, st).Some? then WindowCheck(g, st)
    else if g.grantId in st.revoked then Some(Revoked)
    else None
  }

  function GrantsCheck(chain: seq<ExecutionGrant>, st: Setting): (r: Option<Error>)
    ensures r.None? <==> forall i :: 0 <= i < |chain| ==> GrantCheck(chain[i], st).None?
  {
    if chain == [] then None else First(GrantCheck(chain[0], st), GrantsCheck(chain[1..], st))
  }

  function LinkCheck(parent: ExecutionGrant, child: ExecutionGrant): Option<Error> {
    if child.parentId != Some(parent.grantId) then Some(WrongParent) else NarrowCheck(child, parent)
  }

  function LinksCheck(chain: seq<ExecutionGrant>): (r: Option<Error>)
    ensures r.None? <==> forall i :: 0 <= i < |chain| - 1 ==> LinkCheck(chain[i], chain[i + 1]).None?
  {
    if |chain| <= 1 then None else First(LinkCheck(chain[0], chain[1]), LinksCheck(chain[1..]))
  }

  function VerifyDelegationChain(chain: seq<ExecutionGrant>, st: Setting): Option<Error> {
    if chain == [] then Some(EmptyChain)
    else if chain[0].parentId.Some? then Some(NotARoot)
    else First(GrantsCheck(chain, st), LinksCheck(chain))
  }

  lemma {:induction false} LinksNarrow(chain: seq<ExecutionGrant>, i: nat, j: nat)
    requires i <= j < |chain| && forall k :: 0 <= k < |chain| - 1 ==> Narrower(chain[k + 1], chain[k])
    ensures Narrower(chain[j], chain[i])
    decreases j - i
  {
    if i == j {
      NarrowerReflexive(chain[i]);
    } else {
      LinksNarrow(chain, i, j - 1);
      assert Narrower(chain[j - 1 + 1], chain[j - 1]);
      NarrowerTransitive(chain[j], chain[j - 1], chain[i]);
    }
  }

  /** In an accepted chain every grant is narrower than every grant before it. */
  lemma AcceptedChainNarrows(chain: seq<ExecutionGrant>, st: Setting, i: nat, j: nat)
    requires VerifyDelegationChain(chain, st).None? && i <= j < |chain|
    ensures Narrower(chain[j], chain[i])
  {
    forall k | 0 <= k < |chain| - 1
      ensures Narrower(chain[k + 1], chain[k])
    {
      assert LinkCheck(chain[k], chain[k + 1]).None?;
    }
    LinksNarrow(chain, i, j);
  }

  /** Hence the leaf of an accepted chain permits only what every grant above it permits. */
  lemma LeafPermitsOnlyWhatAllPermit(chain: seq<ExecutionGrant>, st: Setting, i: nat, r: Request)
    requires VerifyDelegationChain(chain, st).None? && i < |chain|
    requires Permits(chain[|chain| - 1], r)
    ensures Permits(chain[i], r)
  {
    AcceptedChainNarrows(chain, st, i, |chain| - 1);
  }

  /** The leeway widens the window on both sides. */
  lemma WindowExactly(g: ExecutionGrant, st: Setting)
    ensures WindowCheck(g, st).None? <==> g.notBefore - st.leeway <= st.now <= g.expiresAt + st.leeway
    ensures WindowCheck(g, st) == Some(NotYetValid) <==> st.now + st.leeway < g.notBefore
  {
  }

  lemma WindowInherited(child: ExecutionGrant, parent: ExecutionGrant, st: Setting)
    requires Narrower(child, parent) && WindowCheck(child, st).None?
    ensures WindowCheck(parent, st).None?
  {
  }

  ghost predicate Linked(chain: seq<ExecutionGrant>) {
    && chain != [] && chain[0].parentId.None?
    && (forall i :: 0 <= i < |chain| - 1 ==> chain[i + 1].parentId == Some(chain[i].grantId))
    && (forall i :: 0 <= i < |chain| - 1 ==> Narrower(chain[i + 1], chain[i]))
  }

  /** The chain check decides exactly this: linked and narrowing from a root, every signature good, none
      revoked, and the leaf alone inside its window; the other windows follow. */
  lemma ChainAcceptedExactly(chain: seq<ExecutionGrant>, st: Setting)
    ensures VerifyDelegationChain(chain, st).None? <==>
              && Linked(chain) && WindowCheck(chain[|chain| - 1], st).None?
              && (forall i :: 0 <= i < |chain| ==> st.signatureOk(chain[i]) && chain[i].grantId !in st.revoked)
  {
    if VerifyDelegationChain(chain, st).None? {
      forall i | 0 <= i < |chain| - 1
        ensures chain[i + 1].parentId == Some(chain[i].grantId) && Narrower(chain[i + 1], chain[i])
      {
        assert LinkCheck(chain[i], chain[i + 1]).None?;
      }
      assert forall i :: 0 <= i < |chain| ==> GrantCheck(chain[i], st).None?;
    }
    if Linked(chain) && WindowCheck(chain[|chain| - 1], st).None?
       && forall i :: 0 <= i < |chain| ==> st.signatureOk(chain[i]) && chain[i].grantId !in st.revoked {
      forall i | 0 <= i < |chain|
        ensures GrantCheck(chain[i], st).None?
      {
        LinksNarrow(chain, i, |chain| - 1);
        WindowInherited(chain[|chain| - 1], chain[i], st);
      }
      forall i | 0 <= i < |chain| - 1
        ensures LinkCheck(chain[i], chain[i + 1]).None?
      {
      }
    }
  }

  // ---------- delegating ----------

  /** The arguments of one delegate call; None inherits the parent's value. */
  datatype Proposal = Proposal(
    issuer: Principal, subject: Principal, grantId: string, audience: Option<set<string>>,
    effectTypes: Option<set<string>>, scope: Option<Scope>, notBefore: Option<int>, expiresAt: Option<int>,
    maxUses: Option<int>, manifestHash: Option<string>, budgetId: Option<string>)

  function OrElse<T>(given: Option<T>, inherited: T): T {
    if given.Some? then given.value else inherited
  }

  function Proposed(parent: ExecutionGrant, p: Proposal): ExecutionGrant {
    ExecutionGrant(
      p.grantId, p.manifestHash, None, None, None, None,
      if p.budgetId.Some? then p.budgetId else parent.budgetId,
      p.issuer, p.subject, OrElse(p.audience, parent.audience), OrElse(p.effectTypes, parent.effectTypes),
      OrElse(p.scope, parent.scope), OrElse(p.notBefore, parent.notBefore), OrElse(p.expiresAt, parent.expiresAt),
      OrElse(p.maxUses, parent.maxUses), Some(parent.grantId))
  }

  function Delegate(parent: ExecutionGrant, p: Proposal): Result<ExecutionGrant, Error> {
    var child := Proposed(parent, p);
    if p.issuer.kind == Agent then Err(IssuerNotAuthorized)
    else if !WellFormedGrant(child) then Err(InvalidGrant)
    else
      var refusal := NarrowCheck(child, parent);
      if refusal.Some? then Err(refusal.value) else Ok(child)
  }

  /** What a delegated grant holds, field by field: every value that the call gives, and the parent's
      where the call gives none. */
  lemma DelegatedHolds(parent: ExecutionGrant, p: Proposal)
    requires Delegate(parent, p).Ok?
    ensures var child := Delegate(parent, p).value;
            && child.grantId == p.grantId && child.issuer == p.issuer && child.subject == p.subject
            && child.parentId == Some(parent.grantId) && child.manifestHash == p.manifestHash
            && (if p.audience.Some? then child.audience == p.audience.value else child.audience == parent.audience)
            && (if p.effectTypes.Some? then child.effectTypes == p.effectTypes.value
                else child.effectTypes == parent.effectTypes)
            && (if p.scope.Some? then child.scope == p.scope.value else child.scope == parent.scope)
            && (if p.notBefore.Some? then child.notBefore == p.notBefore.value
                else child.notBefore == parent.notBefore)
            && (if p.expiresAt.Some? then child.expiresAt == p.expiresAt.value
                else child.expiresAt == parent.expiresAt)
            && (if p.maxUses.Some? then child.maxUses == p.maxUses.value else child.maxUses == parent.maxUses)
            && (if p.budgetId.Some? then child.budgetId == p.budgetId else child.budgetId == parent.budgetId)
  {
  }

  predicate ListWithin(child: AllowList, parent: AllowList) {
    parent.Some? ==> child.Some? && child.value <= parent.value
  }

  predicate AmountWithin(child: Option<Money>, parent: Option<Money>) {
    parent.Some? ==>
      child.Some? && child.value.currency == parent.value.currency && child.value.minorUnits <= parent.value.minorUnits
  }

  predicate ScopeWithin(child: Scope, parent: Scope) {
    && ListWithin(child.targetResources, parent.targetResources) && ListWithin(child.recipients, parent.recipients)
    && AmountWithin(child.maxAmount, parent.maxAmount) && ListWithin(child.allowedFields, parent.allowedFields)
    && ListWithin(child.environments, parent.environments)
  }

  /** A delegate call is granted exactly when its issuer is no agent, every value it gives is well formed
      and no wider than the parent's, and the window that results is not empty. A value left out never
      stands in the way. */
  lemma DelegateGrantedExactly(parent: ExecutionGrant, p: Proposal)
    requires WellFormedGrant(parent)
    ensures Delegate(parent, p).Ok? <==>
              && p.issuer.kind != Agent
              && (p.audience.Some? ==> {} != p.audience.value <= parent.audience)
              && (p.effectTypes.Some? ==> {} != p.effectTypes.value <= parent.effectTypes)
              && (p.scope.Some? ==> WellFormedScope(p.scope.value) && ScopeWithin(p.scope.value, parent.scope))
              && (p.notBefore.Some? ==> parent.notBefore <= p.notBefore.value)
              && (p.expiresAt.Some? ==> p.expiresAt.value <= parent.expiresAt)
              && (if p.notBefore.Some? then p.notBefore.value else parent.notBefore)
                   < (if p.expiresAt.Some? then p.expiresAt.value else parent.expiresAt)
              && (p.maxUses.Some? ==> 1 <= p.maxUses.value <= parent.maxUses)
              && (p.budgetId.Some? && parent.budgetId.Some? ==> p.budgetId == parent.budgetId)
    ensures p.issuer.kind == Agent ==> Delegate(parent, p) == Err(IssuerNotAuthorized)
  {
    var child := Proposed(parent, p);
    ScopeNarrowerExactly(child.scope, parent.scope);
  }

  lemma ScopeNarrowerExactly(child: Scope, parent: Scope)
    ensures ScopeNarrower(child, parent).None? <==> ScopeWithin(child, parent)
  {
  }

  predicate LeavesAllOut(p: Proposal) {
    && p.audience.None? && p.effectTypes.None? && p.scope.None? && p.notBefore.None?
    && p.expiresAt.None? && p.maxUses.None? && p.budgetId.None?
  }

  /** Leaving everything out is always allowed to a human or service: the child is as wide as the
      parent; and nothing wider is ever issued. */
  lemma DelegateNeverWidens(parent: ExecutionGrant, p: Proposal)
    requires WellFormedGrant(parent)
    ensures Delegate(parent, p).Ok? ==> PermitsNoMore(Delegate(parent, p).value, parent) && p.issuer.kind != Agent
    ensures LeavesAllOut(p) && p.issuer.kind != Agent ==> Delegate(parent, p).Ok?
  {
    if Delegate(parent, p).Ok? {
      NarrowerExactly(Delegate(parent, p).value, parent);
    }
  }

  /** Grants obtained by delegating again and again, each from the one before. */
  function DelegateAll(root: ExecutionGrant, proposals: seq<Proposal>): Option<seq<ExecutionGrant>> {
    if proposals == [] then Some([root])
    else
      var before := DelegateAll(root, proposals[..|proposals| - 1]);
      if before.None? || before.value == [] then None
      else
        var child := Delegate(before.value[|before.value| - 1], proposals[|proposals| - 1]);
        if child.Err? then None else Some(before.value + [child.value])
  }

  lemma {:induction false} DelegatedIsLinked(root: ExecutionGrant, proposals: seq<Proposal>)
    requires root.parentId.None? && DelegateAll(root, proposals).Some?
    ensures var chain := DelegateAll(root, proposals).value;
            Linked(chain) && |chain| == |proposals| + 1 && chain[0] == root
    decreases |proposals|
  {
    if proposals != [] {
      DelegatedIsLinked(root, proposals[..|proposals| - 1]);
    }
  }

  /** Any run of successful delegate calls yields a list on which all pairwise checks pass. */
  lemma DelegatedChainNarrows(root: ExecutionGrant, proposals: seq<Proposal>, i: nat, j: nat)
    requires root.parentId.None? && DelegateAll(root, proposals).Some?
    requires i <= j < |DelegateAll(root, proposals).value|
    ensures var chain := DelegateAll(root, proposals).value;
            Narrower(chain[j], chain[i]) && (i + 1 < |chain| ==> LinkCheck(chain[i], chain[i + 1]).None?)
  {
    DelegatedIsLinked(root, proposals);
    LinksNarrow(DelegateAll(root, proposals).value, i, j);
  }

  /** And the chain check accepts it exactly when the signatures are good, nothing is revoked and the
      leaf is inside its window. */
  lemma DelegatedChainAccepted(root: ExecutionGrant, proposals: seq<Proposal>, st: Setting)
    requires root.parentId.None? && DelegateAll(root, proposals).Some?
    ensures var chain := DelegateAll(root, proposals).value;
            chain != [] &&
            (VerifyDelegationChain(chain, st).None? <==>
              && WindowCheck(chain[|chain| - 1], st).None?
              && (forall i :: 0 <= i < |chain| ==> st.signatureOk(chain[i]) && chain[i].grantId !in st.revoked))
  {
    DelegatedIsLinked(root, proposals);
    ChainAcceptedExactly(DelegateAll(root, proposals).value, st);
  }
}
