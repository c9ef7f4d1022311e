/** The rejected statements of an evaluation, as a multiset, do not depend on the order of submission:
    without any condition on ties, since tied statements share their id. */
module QuorumRejected {
  import opened Wrappers
  import opened Quorum
  import opened QuorumTheorems

  type Bag = multiset<(string, Reason)>

  // ---------- sums over a list ----------

  function Sum(xs: seq<Statement>, f: Statement -> Bag): Bag {
    if xs == [] then multiset{} else Sum(xs[..|xs| - 1], f) + f(xs[|xs| - 1])
  }

  lemma {:induction false} SumOfConcat(a: seq<Statement>, b: seq<Statement>, f: Statement -> Bag)
    ensures Sum(a + b, f) == Sum(a, f) + Sum(b, f)
    decreases |b|
  {
    if b == [] {
      assert a + b == a;
    } else {
      var front := b[..|b| - 1];
      assert (a + b)[..|a + b| - 1] == a + front;
      SumOfConcat(a, front, f);
    }
  }

  lemma SumWithout(xs: seq<Statement>, i: nat, f: Statement -> Bag)
    requires i < |xs|
    ensures Sum(xs, f) == Sum(xs[..i] + xs[i + 1..], f) + f(xs[i])
    ensures multiset(xs[..i] + xs[i + 1..]) == multiset(xs) - multiset{xs[i]}
  {
    var a, b := xs[..i], xs[i + 1..];
    CutAt(xs, i);
    SumOfConcat(a, [xs[i]], f);
    SumOfConcat(a + [xs[i]], b, f);
    SumOfConcat(a, b, f);
    SumOfOne(xs[i], f);
  }

  lemma CutAt(xs: seq<Statement>, i: nat)
    requires i < |xs|
    ensures xs == xs[..i] + [xs[i]] + xs[i + 1..]
    ensures multiset(xs[..i] + xs[i + 1..]) == multiset(xs) - multiset{xs[i]}
  {
    assert xs == xs[..i] + [xs[i]] + xs[i + 1..];
  }

  lemma SumOfOne(s: Statement, f: Statement -> Bag)
    ensures Sum([s], f) == f(s)
  {
    assert [s][..0] == [];
    assert Sum([s], f) == Sum([], f) + f(s);
  }

  lemma {:induction false} SumOrderFree(xs: seq<Statement>, ys: seq<Statement>, f: Statement -> Bag)
    requires multiset(xs) == multiset(ys)
    ensures Sum(xs, f) == Sum(ys, f)
    decreases |xs|
  {
    assert |multiset(xs)| == |multiset(ys)|;
    if xs != [] {
      var front, last := xs[..|xs| - 1], xs[|xs| - 1];
      assert xs == front + [last];
      assert last in multiset(ys);
      var i :| 0 <= i < |ys| && ys[i] == last;
      SumWithout(ys, i, f);
      SumOrderFree(front, ys[..i] + ys[i + 1..], f);
    }
  }

  lemma {:induction false} SumSame(xs: seq<Statement>, f: Statement -> Bag, g: Statement -> Bag)
    requires forall s :: s in xs ==> f(s) == g(s)
    ensures Sum(xs, f) == Sum(xs, g)
    decreases |xs|
  {
    if xs != [] {
      assert xs == xs[..|xs| - 1] + [xs[|xs| - 1]];
      SumSame(xs[..|xs| - 1], f, g);
    }
  }

  lemma {:induction false} SumSplits(xs: seq<Statement>, f: Statement -> Bag, g: Statement -> Bag, h: Statement -> Bag)
    requires forall s :: s in xs ==> f(s) == g(s) + h(s)
    ensures Sum(xs, f) == Sum(xs, g) + Sum(xs, h)
    decreases |xs|
  {
    if xs != [] {
      assert xs == xs[..|xs| - 1] + [xs[|xs| - 1]];
      SumSplits(xs[..|xs| - 1], f, g, h);
    }
  }

  // ---------- what each statement contributes ----------

  /** The id of the statement kept for each approver. */
  ghost function TopIds(xs: seq<Statement>): map<string, string> {
    map id | id in Ids(xs) :: Kept(xs, id).statementId
  }

  function Loses(s: Statement, top: string): Bag {
    if s.statementId != top then multiset{(s.statementId, Superseded)} else multiset{}
  }

  /** Superseded statements of the approvers in a list. */
  ghost function Supersedes(tops: map<string, string>, order: seq<string>): Statement -> Bag {
    (s: Statement) =>
      if s.approver.id in order && s.approver.id in tops then Loses(s, tops[s.approver.id]) else multiset{}
  }

  function Refusal(ctx: Context): Statement -> Bag {
    (s: Statement) => var reason := RejectReason(s, ctx);
      if reason.Some? then multiset{(s.statementId, reason.value)} else multiset{}
  }

  ghost function Surviving(ctx: Context, f: Statement -> Bag): Statement -> Bag {
    (s: Statement) => if RejectReason(s, ctx).None? then f(s) else multiset{}
  }

  lemma {:induction false} RefusedSum(xs: seq<Statement>, ctx: Context)
    ensures multiset(Refused(xs, ctx)) == Sum(xs, Refusal(ctx))
    decreases |xs|
  {
    if xs != [] {
      RefusedSum(xs[..|xs| - 1], ctx);
    }
  }

  lemma {:induction false} SurvivorsSum(xs: seq<Statement>, ctx: Context, f: Statement -> Bag)
    ensures Sum(Survivors(xs, ctx), f) == Sum(xs, Surviving(ctx, f))
    decreases |xs|
  {
    if xs != [] {
      var front, last := xs[..|xs| - 1], xs[|xs| - 1];
      SurvivorsSum(front, ctx, f);
      if RejectReason(last, ctx).None? {
        SumOfConcat(Survivors(front, ctx), [last], f);
        assert [last][..0] == [];
        assert Sum([last], f) == f(last);
      }
    }
  }

  ghost function LosesIn(id: string, top: string): Statement -> Bag {
    (s: Statement) => if s.approver.id == id then Loses(s, top) else multiset{}
  }

  lemma {:induction false} GroupLosers(xs: seq<Statement>, id: string, winner: Statement)
    ensures multiset(SupersededIn(Group(xs, id), winner)) == Sum(xs, LosesIn(id, winner.statementId))
    decreases |xs|
  {
    if xs != [] {
      var front, last := xs[..|xs| - 1], xs[|xs| - 1];
      GroupLosers(front, id, winner);
      if last.approver.id == id {
        assert Group(xs, id)[..|Group(xs, id)| - 1] == Group(front, id);
      }
    }
  }

  lemma {:induction false} SupersededSum(xs: seq<Statement>, order: seq<string>)
    requires forall id :: id in order ==> Group(xs, id) != []
    requires forall i, j :: 0 <= i < j < |order| ==> order[i] != order[j]
    ensures multiset(SupersededOf(xs, order)) == Sum(xs, Supersedes(TopIds(xs), order))
    decreases |order|
  {
    if order == [] {
      SumNothing(xs, Supersedes(TopIds(xs), order));
    } else {
      var front, id := order[..|order| - 1], order[|order| - 1];
      assert order == front + [id] && id !in front && id in Ids(xs);
      SupersededSum(xs, front);
      var winner := Winner(Group(xs, id));
      GroupLosers(xs, id, winner);
      forall s | s in xs {
        SupersedesSplits(TopIds(xs), front, id, s);
      }
      SumSplits(xs, Supersedes(TopIds(xs), order), Supersedes(TopIds(xs), front), LosesIn(id, winner.statementId));
    }
  }

  lemma SupersedesSplits(tops: map<string, string>, front: seq<string>, id: string, s: Statement)
    requires id in tops && id !in front
    ensures Supersedes(tops, front + [id])(s) == Supersedes(tops, front)(s) + LosesIn(id, tops[id])(s)
  {
  }

  lemma {:induction false} SumNothing(xs: seq<Statement>, f: Statement -> Bag)
    requires forall s :: s in xs ==> f(s) == multiset{}
    ensures Sum(xs, f) == multiset{}
    decreases |xs|
  {
    if xs != [] {
      assert xs == xs[..|xs| - 1] + [xs[|xs| - 1]];
      SumNothing(xs[..|xs| - 1], f);
    }
  }

  /** The rejected list as a sum over the statements. */
  lemma RejectedSum(xs: seq<Statement>, ctx: Context)
    ensures var s := Survivors(xs, ctx);
            multiset(Rejected(xs, ctx)) == Sum(xs, Refusal(ctx)) + Sum(s, Supersedes(TopIds(s), Ids(s)))
  {
    var s := Survivors(xs, ctx);
    RefusedSum(xs, ctx);
    SupersededSum(s, Ids(s));
  }

  lemma TopIdsOfTheSet(xs: seq<Statement>, ys: seq<Statement>)
    requires SameMembers(xs, ys)
    ensures TopIds(xs) == TopIds(ys)
    ensures forall id :: id in Ids(xs) <==> id in Ids(ys)
  {
    forall id
      ensures id in Ids(xs) <==> id in Ids(ys)
      ensures id in Ids(xs) ==> Kept(xs, id).statementId == Kept(ys, id).statementId
    {
      assert Group(xs, id) != [] ==> Group(xs, id)[0] in Group(ys, id);
      assert Group(ys, id) != [] ==> Group(ys, id)[0] in Group(xs, id);
      if id in Ids(xs) {
        KeptIsLatest(xs, id);
        KeptIsLatest(ys, id);
        BeforeIsTotal(Kept(xs, id), Kept(ys, id));
      }
    }
  }

  /** Every order of the statements yields the same rejections, as a multiset. */
  lemma RejectedOrderFree(xs: seq<Statement>, ys: seq<Statement>, ctx: Context)
    requires multiset(xs) == multiset(ys)
    ensures multiset(Rejected(xs, ctx)) == multiset(Rejected(ys, ctx))
  {
    var s, t := Survivors(xs, ctx), Survivors(ys, ctx);
    var f, g := Supersedes(TopIds(s), Ids(s)), Supersedes(TopIds(t), Ids(t));
    PermutationsShareMembers(xs, ys);
    RejectedSum(xs, ctx);
    RejectedSum(ys, ctx);
    SumOrderFree(xs, ys, Refusal(ctx));
    TopIdsOfTheSet(s, t);
    SurvivorsSum(xs, ctx, f);
    SurvivorsSum(ys, ctx, f);
    SumOrderFree(xs, ys, Surviving(ctx, f));
    SumSame(t, f, g);
  }

  // ---------- who is listed, and why ----------

  ghost predicate RefusedFor(xs: seq<Statement>, ctx: Context, id: string, reason: Reason) {
    exists s :: s in xs && s.statementId == id && RejectReason(s, ctx) == Some(reason)
  }

  lemma {:induction false} RefusedHolds(xs: seq<Statement>, ctx: Context, id: string, reason: Reason)
    ensures (id, reason) in Refused(xs, ctx) <==> RefusedFor(xs, ctx, id, reason)
    decreases |xs|
  {
    if xs != [] {
      var front, last := xs[..|xs| - 1], xs[|xs| - 1];
      assert xs == front + [last];
      RefusedHolds(front, ctx, id, reason);
      assert RefusedFor(xs, ctx, id, reason) <==>
               || RefusedFor(front, ctx, id, reason)
               || (last.statementId == id && RejectReason(last, ctx) == Some(reason));
    }
  }

  lemma {:induction false} SupersededInHolds(group: seq<Statement>, winner: Statement, id: string, reason: Reason)
    ensures (id, reason) in SupersededIn(group, winner) <==>
              reason == Superseded && id != winner.statementId && exists s :: s in group && s.statementId == id
    decreases |group|
  {
    if group != [] {
      assert group == group[..|group| - 1] + [group[|group| - 1]];
      SupersededInHolds(group[..|group| - 1], winner, id, reason);
    }
  }

  ghost predicate Outdone(xs: seq<Statement>, order: seq<string>, id: string) {
    exists s :: s in xs && s.statementId == id && s.approver.id in order && Kept(xs, s.approver.id).statementId != id
  }

  lemma {:induction false} SupersededOfHolds(xs: seq<Statement>, order: seq<string>, id: string, reason: Reason)
    requires forall a :: a in order ==> Group(xs, a) != []
    ensures (id, reason) in SupersededOf(xs, order) <==> reason == Superseded && Outdone(xs, order, id)
    decreases |order|
  {
    if order != [] {
      var front, last := order[..|order| - 1], order[|order| - 1];
      assert order == front + [last];
      SupersededOfHolds(xs, front, id, reason);
      SupersededInHolds(Group(xs, last), Kept(xs, last), id, reason);
      assert Outdone(xs, order, id) <==>
               Outdone(xs, front, id)
               || (Kept(xs, last).statementId != id && exists s :: s in Group(xs, last) && s.statementId == id);
    }
  }

  /** The rejected list, entry by entry: a statement id stands there with the reason for which one of its
      statements was refused, or as superseded because the statement kept for its approver, among those
      that were not refused, has another id. */
  lemma RejectedListsExactly(xs: seq<Statement>, ctx: Context, id: string, reason: Reason)
    ensures (id, reason) in Rejected(xs, ctx) <==>
              || RefusedFor(xs, ctx, id, reason)
              || (reason == Superseded
                  && exists s :: s in xs && s.statementId == id && RejectReason(s, ctx).None?
                                 && Kept(Survivors(xs, ctx), s.approver.id).statementId != id)
  {
    var survivors := Survivors(xs, ctx);
    RefusedHolds(xs, ctx, id, reason);
    SupersededOfHolds(survivors, Ids(survivors), id, reason);
    forall s | s in survivors
      ensures s.approver.id in Ids(survivors)
    {
      assert s in Group(survivors, s.approver.id);
    }
  }
}
