/** Decision envelopes: which manifests fit, when one envelope narrows another, and what narrowing
    guarantees about the manifests that fit. */
module Envelope {
  import opened Wrappers
  import opened Amounts
  import opened Constraints

  datatype Adapter = Adapter(id: string, version: string)

  datatype DecisionEnvelope = DecisionEnvelope(
    effectType: string, adapter: Adapter, targets: set<string>, constraints: map<string, Constraint>,
    forbidUnknown: bool, requireAll: bool, maxCost: Option<Money>, graphHash: Option<string>,
    notBefore: int, expiresAt: int)

  datatype Manifest = Manifest(
    effectType: string, adapter: Adapter, target: string, parameters: map<string, Value>, estimatedCost: Option<Money>)

  datatype FitError =
    | WrongEffectType | WrongAdapter | WrongTarget | UnknownParameters | MissingParameters
    | ParameterRefused | CostMissing | CostCurrency | CostExceeded

  datatype NarrowError =
    | EffectTypeDiffers | AdapterDiffers | TargetsWiden | CostUncapped | CostCurrencyDiffers | CostWidens
    | GraphDiffers | GraphIntroduced | RelaxesUnknown | RelaxesRequired | DropsConstraint
    | ConstraintWidens | OutlivesParent | StartsEarly

  /** What the envelope constructor guarantees and the results here rely on. */
  predicate WellFormedEnvelope(e: DecisionEnvelope) {
    e.targets != {} && forall k :: k in e.constraints ==> WellFormed(e.constraints[k])
  }

  predicate IsEffectiveAt(e: DecisionEnvelope, when: int) {
    e.notBefore <= when < e.expiresAt
  }

  // ---------- fitting ----------

  /** The part of the fit check that looks at the parameters. */
  function ParameterFit(parameters: map<string, Value>, e: DecisionEnvelope): Option<FitError> {
    if e.forbidUnknown && parameters.Keys - e.constraints.Keys != {} then Some(UnknownParameters)
    else if e.requireAll && e.constraints.Keys - parameters.Keys != {} then Some(MissingParameters)
    else if exists k :: k in e.constraints && k in parameters && !Accepts(e.constraints[k], parameters[k])
    then Some(ParameterRefused)
    else None
  }

  function CostFit(cost: Option<Money>, cap: Option<Money>): Option<FitError> {
    if cap.None? then None
    else if cost.None? then Some(CostMissing)
    else if cost.value.currency != cap.value.currency then Some(CostCurrency)
    else if cost.value.minorUnits > cap.value.minorUnits then Some(CostExceeded)
    else None
  }

  function FitCheck(m: Manifest, e: DecisionEnvelope): Option<FitError> {
    if m.effectType != e.effectType then Some(WrongEffectType)
    else if m.adapter != e.adapter then Some(WrongAdapter)
    else if m.target !in e.targets then Some(WrongTarget)
    else
      var parameters := ParameterFit(m.parameters, e);
      if parameters.Some? then parameters else CostFit(m.estimatedCost, e.maxCost)
  }

  predicate Fits(m: Manifest, e: DecisionEnvelope) {
    FitCheck(m, e).None?
  }

  ghost predicate WithinCap(cost: Option<Money>, cap: Option<Money>) {
    cap.Some? ==>
      cost.Some? && cost.value.currency == cap.value.currency && cost.value.minorUnits <= cap.value.minorUnits
  }

  /** What fitting means: the same kind of effect by the same adapter on an allowed target, no key
      unknown to a strict envelope, none missing from one that requires all, every constrained
      parameter accepted, and the cost within the cap. */
  lemma FitsExactly(m: Manifest, e: DecisionEnvelope)
    ensures Fits(m, e) <==>
              && m.effectType == e.effectType && m.adapter == e.adapter && m.target in e.targets
              && (e.forbidUnknown ==> forall k :: k in m.parameters ==> k in e.constraints)
              && (e.requireAll ==> forall k :: k in e.constraints ==> k in m.parameters)
              && (forall k :: k in e.constraints && k in m.parameters ==> Accepts(e.constraints[k], m.parameters[k]))
              && WithinCap(m.estimatedCost, e.maxCost)
  {
    NothingOutside(m.parameters.Keys, e.constraints.Keys);
    NothingOutside(e.constraints.Keys, m.parameters.Keys);
  }

  lemma NothingOutside(a: set<string>, b: set<string>)
    ensures a - b == {} <==> forall k :: k in a ==> k in b
  {
    forall k | k in a && k !in b
      ensures a - b != {}
    {
      assert k in a - b;
    }
  }

  // ---------- narrowing ----------

  function CostNarrower(child: Option<Money>, parent: Option<Money>): Option<NarrowError> {
    if parent.None? then None
    else if child.None? then Some(CostUncapped)
    else if child.value.currency != parent.value.currency then Some(CostCurrencyDiffers)
    else if child.value.minorUnits > parent.value.minorUnits then Some(CostWidens)
    else None
  }

  function NarrowRefusal(child: DecisionEnvelope, parent: DecisionEnvelope): Option<NarrowError> {
    if child.effectType != parent.effectType then Some(EffectTypeDiffers)
    else if child.adapter != parent.adapter then Some(AdapterDiffers)
    else if !(child.targets <= parent.targets) then Some(TargetsWiden)
    else if CostNarrower(child.maxCost, parent.maxCost).Some? then CostNarrower(child.maxCost, parent.maxCost)
    else if parent.graphHash.Some? && child.graphHash != parent.graphHash then Some(GraphDiffers)
    else if parent.graphHash.None? && child.graphHash.Some? then Some(GraphIntroduced)
    else if parent.forbidUnknown && !child.forbidUnknown then Some(RelaxesUnknown)
    else if parent.requireAll && !child.requireAll then Some(RelaxesRequired)
    else if parent.constraints.Keys - child.constraints.Keys != {} then Some(DropsConstraint)
    else if exists k :: k in parent.constraints && k in child.constraints
                        && !Narrower(child.constraints[k], parent.constraints[k])
    then Some(ConstraintWidens)
    else if child.expiresAt > parent.expiresAt then Some(OutlivesParent)
    else if child.notBefore < parent.notBefore then Some(StartsEarly)
    else None
  }

  predicate EnvelopeNarrower(child: DecisionEnvelope, parent: DecisionEnvelope) {
    NarrowRefusal(child, parent).None?
  }

  /** What narrowing means, dimension by dimension. */
  lemma EnvelopeNarrowerExactly(child: DecisionEnvelope, parent: DecisionEnvelope)
    ensures EnvelopeNarrower(child, parent) <==>
              && child.effectType == parent.effectType && child.adapter == parent.adapter
                 && child.targets <= parent.targets
              && WithinCap(child.maxCost, parent.maxCost) && child.graphHash == parent.graphHash
              && (parent.forbidUnknown ==> child.forbidUnknown) && (parent.requireAll ==> child.requireAll)
              && (forall k :: k in parent.constraints ==>
                    k in child.constraints && Narrower(child.constraints[k], parent.constraints[k]))
              && parent.notBefore <= child.notBefore && child.expiresAt <= parent.expiresAt
  {
    NothingOutside(parent.constraints.Keys, child.constraints.Keys);
  }

  // ---------- what narrowing guarantees ----------

  lemma WindowLiesInside(child: DecisionEnvelope, parent: DecisionEnvelope, when: int)
    requires EnvelopeNarrower(child, parent) && IsEffectiveAt(child, when)
    ensures IsEffectiveAt(parent, when)
  {
  }

  /** The two ways a manifest that fits the child can fall outside the parent: a key only the child
      knows, and a boolean where the parent has a range. */
  ghost predicate BringsUnknownKey(m: Manifest, parent: DecisionEnvelope) {
    parent.forbidUnknown && exists k :: k in m.parameters && k !in parent.constraints
  }

  ghost predicate BooleanUnderRange(m: Manifest, parent: DecisionEnvelope) {
    exists k :: k in parent.constraints && k in m.parameters && m.parameters[k].Bool? && IsRange(parent.constraints[k])
  }

  lemma NarrowedKeys(child: DecisionEnvelope, parent: DecisionEnvelope)
    requires EnvelopeNarrower(child, parent)
    ensures forall k :: k in parent.constraints ==>
              k in child.constraints && Narrower(child.constraints[k], parent.constraints[k])
  {
    forall k | k in parent.constraints
      ensures k in child.constraints
    {
      assert k !in parent.constraints.Keys - child.constraints.Keys;
    }
  }

  lemma ParametersFitParent(p: map<string, Value>, child: DecisionEnvelope, parent: DecisionEnvelope)
    requires EnvelopeNarrower(child, parent) && ParameterFit(p, child).None?
    ensures ParameterFit(p, parent).None? <==>
              && !(parent.forbidUnknown && exists k :: k in p && k !in parent.constraints)
              && !(exists k :: k in parent.constraints && k in p && p[k].Bool? && IsRange(parent.constraints[k]))
  {
    NarrowedKeys(child, parent);
    forall k | k in parent.constraints && k in p
      ensures Accepts(parent.constraints[k], p[k]) <==> !(p[k].Bool? && IsRange(parent.constraints[k]))
    {
      NarrowingSoundExactly(child.constraints[k], parent.constraints[k], p[k]);
    }
    assert parent.requireAll ==> parent.constraints.Keys - p.Keys <= child.constraints.Keys - p.Keys;
    assert (exists k :: k in p && k !in parent.constraints) <==> p.Keys - parent.constraints.Keys != {} by {
      if k :| k in p && k !in parent.constraints {
        assert k in p.Keys - parent.constraints.Keys;
      }
    }
  }

  /** Exactly which manifests that fit the narrower envelope fit the wider one. */
  lemma FitsParentExactly(m: Manifest, child: DecisionEnvelope, parent: DecisionEnvelope)
    requires EnvelopeNarrower(child, parent) && Fits(m, child)
    ensures Fits(m, parent) <==> !BringsUnknownKey(m, parent) && !BooleanUnderRange(m, parent)
  {
    ParametersFitParent(m.parameters, child, parent);
  }

  ghost predicate BooleanFree(m: Manifest) {
    forall k :: k in m.parameters ==> !m.parameters[k].Bool?
  }

  ghost predicate AddsKey(child: DecisionEnvelope, parent: DecisionEnvelope) {
    exists k :: k in child.constraints && k !in parent.constraints
  }

  /** Everything without booleans that fits the child fits the parent. */
  ghost predicate Sound(child: DecisionEnvelope, parent: DecisionEnvelope) {
    forall m :: BooleanFree(m) && Fits(m, child) ==> Fits(m, parent)
  }

  /** A manifest that carries every constrained parameter and fits. */
  ghost function SampleManifest(e: DecisionEnvelope): (m: Manifest)
    requires WellFormedEnvelope(e)
    ensures BooleanFree(m) && Fits(m, e) && m.parameters.Keys == e.constraints.Keys
  {
    var target :| target in e.targets;
    Manifest(e.effectType, e.adapter, target, map k | k in e.constraints :: Sample(e.constraints[k]), e.maxCost)
  }

  /** Narrowing is sound for manifests without booleans exactly when the child adds no key or the
      parent tolerates unknown keys. An added key is taken for a restriction by the narrowing check,
      but a parent that forbids unknown keys refuses every manifest that carries it. */
  lemma NarrowingSoundExactlyWhen(child: DecisionEnvelope, parent: DecisionEnvelope)
    requires WellFormedEnvelope(child) && EnvelopeNarrower(child, parent)
    ensures Sound(child, parent) <==> !AddsKey(child, parent) || !parent.forbidUnknown
  {
    if AddsKey(child, parent) && parent.forbidUnknown {
      var k :| k in child.constraints && k !in parent.constraints;
      var m := SampleManifest(child);
      assert k in m.parameters;
      FitsParentExactly(m, child, parent);
      assert !Fits(m, parent);
    } else {
      forall m | BooleanFree(m) && Fits(m, child)
        ensures Fits(m, parent)
      {
        FitsParentExactly(m, child, parent);
        ParametersKnown(m, child, parent);
      }
    }
  }

  lemma ParametersKnown(m: Manifest, child: DecisionEnvelope, parent: DecisionEnvelope)
    requires EnvelopeNarrower(child, parent) && Fits(m, child)
    requires !AddsKey(child, parent) || !parent.forbidUnknown
    ensures !BringsUnknownKey(m, parent)
  {
    if parent.forbidUnknown {
      forall k | k in m.parameters
        ensures k in parent.constraints
      {
        assert k !in m.parameters.Keys - child.constraints.Keys;
      }
    }
  }

  /** The failing case exists: the smallest parent and a child that adds one key. */
  lemma AddedKeyEscapesParent()
    ensures var parent := DecisionEnvelope("e", Adapter("a", "1"), {"t"}, map[], true, true, None, None, 0, 10);
            var child := parent.(constraints := map["k" := Exact(Int(7))]);
            var m := Manifest("e", Adapter("a", "1"), "t", map["k" := Int(7)], None);
            EnvelopeNarrower(child, parent) && BooleanFree(m) && Fits(m, child) && !Fits(m, parent)
  {
    var parent := DecisionEnvelope("e", Adapter("a", "1"), {"t"}, map[], true, true, None, None, 0, 10);
    var m := Manifest("e", Adapter("a", "1"), "t", map["k" := Int(7)], None);
    assert "k" in m.parameters.Keys - parent.constraints.Keys;
  }

  // ---------- an order ----------

  lemma EnvelopeReflexive(e: DecisionEnvelope)
    ensures EnvelopeNarrower(e, e)
  {
    forall k | k in e.constraints
      ensures Narrower(e.constraints[k], e.constraints[k])
    {
      NarrowingReflexive(e.constraints[k]);
    }
  }

  /** Some key pairs a range of the outer envelope with a boolean constant of the inner one. */
  ghost predicate BooleanMeetsRange(inner: DecisionEnvelope, outer: DecisionEnvelope) {
    exists k :: k in outer.constraints && k in inner.constraints
                && IsRange(outer.constraints[k]) && HasBoolean(inner.constraints[k])
  }

  /** Narrowing of envelopes chains exactly when no key pairs a range of the outermost with a boolean
      constant of the innermost. */
  lemma EnvelopeTransitiveExactly(a: DecisionEnvelope, b: DecisionEnvelope, c: DecisionEnvelope)
    requires EnvelopeNarrower(a, b) && EnvelopeNarrower(b, c)
    ensures EnvelopeNarrower(a, c) <==> !BooleanMeetsRange(a, c)
  {
    NarrowedKeys(a, b);
    NarrowedKeys(b, c);
    forall k | k in c.constraints
      ensures k in a.constraints
      ensures Narrower(a.constraints[k], c.constraints[k]) <==>
                !(IsRange(c.constraints[k]) && HasBoolean(a.constraints[k]))
    {
      NarrowingTransitiveExactly(a.constraints[k], b.constraints[k], c.constraints[k]);
    }
    assert c.constraints.Keys - a.constraints.Keys == {};
    if EnvelopeNarrower(a, c) {
      NarrowedKeys(a, c);
    }
  }
}
