/** What delegation does to the bindings of a grant: the hashes of the manifest, policy bundle, decision
    envelope and causal graph that commit compares with what it is shown. */
module DelegationBindings {
  import opened Wrappers
  import opened Delegation
  import Protocol = CommitProtocol
  import CommitTheorems

  /** The hashes of what is shown to a commit. */
  datatype Shown = Shown(manifest: string, policy: Option<string>, envelope: Option<string>, graph: Option<string>)

  /** The manifest has to match; the others only where the grant names one. */
  predicate BindingsMet(g: ExecutionGrant, shown: Shown) {
    && g.manifestHash == Some(shown.manifest)
    && (g.policyHash.Some? ==> shown.policy == g.policyHash)
    && (g.envelopeHash.Some? ==> shown.envelope == g.envelopeHash)
    && (g.graphHash.Some? ==> shown.graph == g.graphHash)
  }

  ghost predicate CanBeMet(g: ExecutionGrant) {
    exists shown :: BindingsMet(g, shown)
  }

  ghost predicate MetWherever(a: ExecutionGrant, b: ExecutionGrant) {
    forall shown :: BindingsMet(a, shown) ==> BindingsMet(b, shown)
  }

  /** What meets the bindings of a grant, and nothing more. */
  function Least(g: ExecutionGrant): Shown
    requires g.manifestHash.Some?
  {
    Shown(g.manifestHash.value, g.policyHash, g.envelopeHash, g.graphHash)
  }

  /** The second grant is met wherever the first is exactly when the first can never be met, or the second
      names the same manifest and nothing else that the first does not name too. */
  lemma MetWhereverExactly(a: ExecutionGrant, b: ExecutionGrant)
    ensures MetWherever(a, b) <==>
              || a.manifestHash.None?
              || (&& b.manifestHash == a.manifestHash
                  && (b.policyHash.None? || b.policyHash == a.policyHash)
                  && (b.envelopeHash.None? || b.envelopeHash == a.envelopeHash)
                  && (b.graphHash.None? || b.graphHash == a.graphHash))
  {
    if a.manifestHash.Some? && MetWherever(a, b) {
      assert BindingsMet(a, Least(a));
    }
  }

  /** The documentation says that a field left out inherits the parent's exact value. The bindings do
      not. A child that names no manifest can never be committed with, whatever its parent is bound to.
      A child is met wherever its parent is exactly when the parent names no manifest or the proposal
      repeats it. And the parent is met wherever the child is exactly when the child names no manifest,
      or repeats the parent's and the parent names no policy, envelope or graph. */
  lemma InheritedExactlyWhenRepeated(parent: ExecutionGrant, p: Proposal)
    requires Delegate(parent, p).Ok?
    ensures var child := Delegate(parent, p).value;
            && (CanBeMet(child) <==> p.manifestHash.Some?)
            && (MetWherever(parent, child) <==> parent.manifestHash.None? || p.manifestHash == parent.manifestHash)
            && (MetWherever(child, parent) <==>
                  || p.manifestHash.None?
                  || (&& p.manifestHash == parent.manifestHash && parent.policyHash.None?
                      && parent.envelopeHash.None? && parent.graphHash.None?))
  {
    var child := Delegate(parent, p).value;
    MetWhereverExactly(parent, child);
    MetWhereverExactly(child, parent);
    if p.manifestHash.Some? {
      assert BindingsMet(child, Least(child));
    }
  }

  // ---------- the consequence for commits ----------

  /** The grant as the commit protocol reads it when a manifest is presented with it. */
  function Presented(g: ExecutionGrant, manifest: Protocol.Manifest,
                     hash: Protocol.Manifest -> string): Protocol.Grant {
    Protocol.Grant(g.grantId, if g.manifestHash == Some(hash(manifest)) then Some(manifest) else None,
                   if g.maxUses < 0 then 0 else g.maxUses, g.budgetId, g.parentId)
  }

  predicate PresentsUnbound(job: Protocol.Job) {
    job.Commit? && job.grant.boundTo != Some(job.manifest)
  }

  lemma {:induction false} UnboundStaysAtTheDoor(w: Protocol.World, acts: seq<Protocol.Action>, i: nat)
    requires i < |w.attempts| ==> PresentsUnbound(w.attempts[i].job) ==> CommitTheorems.AtTheDoor(w.attempts[i])
    ensures var v := Protocol.RunFrom(w, acts);
            i < |v.attempts| ==> PresentsUnbound(v.attempts[i].job) ==> CommitTheorems.AtTheDoor(v.attempts[i])
    decreases |acts|
  {
    if acts != [] {
      var before, act := acts[..|acts| - 1], acts[|acts| - 1];
      UnboundStaysAtTheDoor(w, before, i);
      var v := Protocol.RunFrom(w, before);
      if act.Advance? && act.i == i && i < |v.attempts| && PresentsUnbound(v.attempts[i].job) {
        CommitTheorems.DeniedStaysAtTheDoor(Protocol.SceneOf(v, i), act.fault);
      }
    }
  }

  /** When the proposal leaves the manifest out, the binding is lost even where the parent has one, and
      every commit with the child, of any manifest, in any run, ends at the checks: it reserves
      nothing and never reaches the adapter. */
  lemma LostBindingNeverCommits(
      parent: ExecutionGrant, p: Proposal, manifest: Protocol.Manifest, hash: Protocol.Manifest -> string,
      withOutbox: bool, acts: seq<Protocol.Action>, i: nat)
    requires Delegate(parent, p).Ok? && p.manifestHash.None?
    requires i < |Protocol.Run(withOutbox, acts).attempts|
    requires Protocol.Run(withOutbox, acts).attempts[i].job ==
               Protocol.Commit(manifest, Presented(Delegate(parent, p).value, manifest, hash))
    ensures CommitTheorems.AtTheDoor(Protocol.Run(withOutbox, acts).attempts[i])
  {
    UnboundStaysAtTheDoor(Protocol.Initial(withOutbox), acts, i);
  }
}
