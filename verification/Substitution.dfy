/** Filling an envelope's parameters from a partial choice of values. */
module Substitution {
  import opened Wrappers
  import opened Constraints
  import opened Envelope
  import Ordering

  type Choices = map<string, Value>

  datatype SubstitutionError =
    | UnknownChoices
    | Conflict(key: string)
    | ChoiceRequired(key: string)
    | Rejected(key: string, why: Refusal)

  /** What stops one parameter from being filled. */
  function KeyFault(key: string, c: Constraint, choices: Choices): Option<SubstitutionError> {
    if c.Exact? then
      if key in choices && !PyEq(choices[key], c.value) then Some(Conflict(key)) else None
    else if key !in choices then Some(ChoiceRequired(key))
    else if !Accepts(c, choices[key]) then Some(Rejected(key, Check(c, choices[key]).value))
    else None
  }

  function Filled(key: string, c: Constraint, choices: Choices): (v: Value)
    requires KeyFault(key, c, choices).None?
    ensures Accepts(c, v)
  {
    if c.Exact? then PyEqIsEquivalence(c.value, c.value, c.value); c.value else choices[key]
  }

  /** The choices lead to a complete assignment. */
  predicate Resolvable(constraints: map<string, Constraint>, choices: Choices) {
    && choices.Keys <= constraints.Keys
    && forall k :: k in constraints ==> KeyFault(k, constraints[k], choices).None?
  }

  function Resolved(constraints: map<string, Constraint>, choices: Choices): map<string, Value>
    requires Resolvable(constraints, choices)
  {
    map k | k in constraints :: Filled(k, constraints[k], choices)
  }

  /** Fills one parameter: the sealed constant unless a choice disagrees with it, or the choice if the
      constraint accepts it. */
  method Fill(key: string, c: Constraint, choices: Choices) returns (r: Result<Value, SubstitutionError>)
    ensures r.Err? ==> KeyFault(key, c, choices) == Some(r.error)
    ensures r.Ok? ==> KeyFault(key, c, choices).None? && r.value == Filled(key, c, choices)
  {
    var value;
    if c.Exact? {
      if key in choices && !PyEq(choices[key], c.value) {
        return Err(Conflict(key));
      }
      value := c.value;
    } else {
      if key !in choices {
        return Err(ChoiceRequired(key));
      }
      value := choices[key];
      if Check(c, value).Some? {
        return Err(Rejected(key, Check(c, value).value));
      }
    }
    return Ok(value);
  }

  /** The fault reported by a failed substitution. */
  ghost predicate Reported(constraints: map<string, Constraint>, choices: Choices, error: SubstitutionError) {
    if !(choices.Keys <= constraints.Keys) then error == UnknownChoices
    else exists k :: k in constraints && FirstFaulty(constraints, choices, k, error)
  }

  /** Key k has this fault, and no key before it in sorted order has any. */
  ghost predicate FirstFaulty(constraints: map<string, Constraint>, choices: Choices, k: string,
                              error: SubstitutionError)
    requires k in constraints
  {
    && KeyFault(k, constraints[k], choices) == Some(error)
    && forall j :: j in constraints ==> Ordering.Leq(k, j) || KeyFault(j, constraints[j], choices).None?
  }

  /** Keys up to i are filled in. */
  ghost predicate FilledUpTo(constraints: map<string, Constraint>, choices: Choices, order: seq<string>, i: nat,
                             resolved: map<string, Value>)
    requires i <= |order| && forall j :: 0 <= j < |order| ==> order[j] in constraints
  {
    && resolved.Keys == (set j | 0 <= j < i :: order[j])
    && forall j :: 0 <= j < i ==>
         KeyFault(order[j], constraints[order[j]], choices).None?
             && resolved[order[j]] == Filled(order[j], constraints[order[j]], choices)
  }

  /** Succeeds exactly when the choices are resolvable; otherwise reports unknown choices, or the
      fault of the first faulty key in sorted order. */
  method SubstituteParameters(constraints: map<string, Constraint>, choices: Choices)
    returns (r: Result<map<string, Value>, SubstitutionError>)
    ensures r.Ok? <==> Resolvable(constraints, choices)
    ensures r.Ok? ==> r.value == Resolved(constraints, choices)
    ensures r.Err? ==> Reported(constraints, choices, r.error)
  {
    if !(choices.Keys <= constraints.Keys) {
      return Err(UnknownChoices);
    }
    var order := Ordering.SortedSet(constraints.Keys);
    assert forall j :: 0 <= j < |order| ==> order[j] in order;
    var resolved: map<string, Value> := map[];
    for i := 0 to |order|
      invariant FilledUpTo(constraints, choices, order, i, resolved)
    {
      var key := order[i];
      var value := Fill(key, constraints[key], choices);
      if value.Err? {
        FaultIsFirst(constraints, choices, order, i, resolved, value.error);
        return Err(value.error);
      }
      FilledOne(constraints, choices, order, i, resolved);
      resolved := resolved[key := value.value];
    }
    AllFilled(constraints, choices, order, resolved);
    return Ok(resolved);
  }

  lemma FilledOne(constraints: map<string, Constraint>, choices: Choices, order: seq<string>, i: nat,
                  resolved: map<string, Value>)
    requires i < |order| && forall j :: 0 <= j < |order| ==> order[j] in constraints
    requires FilledUpTo(constraints, choices, order, i, resolved)
    requires KeyFault(order[i], constraints[order[i]], choices).None?
    ensures FilledUpTo(constraints, choices, order, i + 1,
                       resolved[order[i] := Filled(order[i], constraints[order[i]], choices)])
  {
  }

  lemma FaultIsFirst(constraints: map<string, Constraint>, choices: Choices, order: seq<string>, i: nat,
                     resolved: map<string, Value>, error: SubstitutionError)
    requires (forall k :: k in order <==> k in constraints) && Ordering.SortedBy(order, (s: string) => s)
    requires i < |order| && (forall j :: 0 <= j < |order| ==> order[j] in constraints)
    requires FilledUpTo(constraints, choices, order, i, resolved)
    requires KeyFault(order[i], constraints[order[i]], choices) == Some(error)
    ensures FirstFaulty(constraints, choices, order[i], error)
  {
    forall k | k in constraints
      ensures Ordering.Leq(order[i], k) || KeyFault(k, constraints[k], choices).None?
    {
      var j :| 0 <= j < |order| && order[j] == k;
      if i <= j {
        assert Ordering.Leq(order[i], order[j]);
      }
    }
  }

  lemma AllFilled(constraints: map<string, Constraint>, choices: Choices, order: seq<string>,
                  resolved: map<string, Value>)
    requires choices.Keys <= constraints.Keys && (forall k :: k in order <==> k in constraints)
    requires forall j :: 0 <= j < |order| ==> order[j] in constraints
    requires FilledUpTo(constraints, choices, order, |order|, resolved)
    ensures Resolvable(constraints, choices) && resolved == Resolved(constraints, choices)
  {
    forall k | k in constraints
      ensures k in resolved && KeyFault(k, constraints[k], choices).None?
              && resolved[k] == Filled(k, constraints[k], choices)
    {
      var j :| 0 <= j < |order| && order[j] == k;
    }
    assert resolved.Keys == constraints.Keys;
  }

  // ---------- what substitution promises ----------

  /** The result carries exactly the constrained keys, and every value is accepted. */
  lemma ResolvedIsComplete(constraints: map<string, Constraint>, choices: Choices)
    requires Resolvable(constraints, choices)
    ensures Resolved(constraints, choices).Keys == constraints.Keys
    ensures forall k :: k in constraints ==> Accepts(constraints[k], Resolved(constraints, choices)[k])
  {
  }

  /** Every choice is honoured: the result equals it, as Python compares. */
  lemma ResolvedHonoursChoices(constraints: map<string, Constraint>, choices: Choices)
    requires Resolvable(constraints, choices)
    ensures forall k :: k in choices ==> k in constraints && PyEq(Resolved(constraints, choices)[k], choices[k])
  {
    forall k | k in choices
      ensures k in constraints && PyEq(Resolved(constraints, choices)[k], choices[k])
    {
      assert k in constraints.Keys;
      PyEqIsEquivalence(choices[k], Resolved(constraints, choices)[k], choices[k]);
    }
  }

  /** The result passes the parameter part of the envelope's own fit check. */
  lemma ResolvedFits(e: DecisionEnvelope, choices: Choices)
    requires Resolvable(e.constraints, choices)
    ensures ParameterFit(Resolved(e.constraints, choices), e).None?
  {
    var p := Resolved(e.constraints, choices);
    assert p.Keys == e.constraints.Keys;
    assert forall k :: k in p ==> Accepts(e.constraints[k], p[k]);
  }

  /** Substituting the result again gives the result. */
  lemma SubstitutionIdempotent(constraints: map<string, Constraint>, choices: Choices)
    requires Resolvable(constraints, choices)
    ensures Resolvable(constraints, Resolved(constraints, choices))
    ensures Resolved(constraints, Resolved(constraints, choices)) == Resolved(constraints, choices)
  {
    var p := Resolved(constraints, choices);
    forall k | k in constraints
      ensures KeyFault(k, constraints[k], p).None?
    {
      assert p[k] == Filled(k, constraints[k], choices);
    }
  }

  /** A complete assignment of accepted values. */
  ghost predicate Complete(constraints: map<string, Constraint>, p: map<string, Value>) {
    p.Keys == constraints.Keys && forall k :: k in constraints ==> Accepts(constraints[k], p[k])
  }

  ghost predicate InImage(constraints: map<string, Constraint>, p: map<string, Value>) {
    exists choices: Choices :: Resolvable(constraints, choices) && Resolved(constraints, choices) == p
  }

  /** The results of substitution are exactly the complete accepted assignments that carry the very
      constant of every exact constraint, not merely an equal one. */
  lemma ImageExactly(constraints: map<string, Constraint>, p: map<string, Value>)
    ensures InImage(constraints, p) <==>
              Complete(constraints, p) && forall k :: k in constraints && constraints[k].Exact? ==>
                  p[k] == constraints[k].value
  {
    if InImage(constraints, p) {
      var choices: Choices :| Resolvable(constraints, choices) && Resolved(constraints, choices) == p;
      ResolvedIsComplete(constraints, choices);
    }
    if Complete(constraints, p) && forall k :: k in constraints && constraints[k].Exact? ==>
        p[k] == constraints[k].value {
      forall k | k in constraints
        ensures KeyFault(k, constraints[k], p).None?
      {
        assert Accepts(constraints[k], p[k]);
      }
      assert Resolvable(constraints, p);
      assert Resolved(constraints, p) == p;
    }
  }

  /** Away from booleans the image is exactly the set of complete accepted assignments. */
  lemma ImageWithoutBooleans(constraints: map<string, Constraint>, p: map<string, Value>)
    requires forall k :: k in p ==> !p[k].Bool?
    requires forall k :: k in constraints && constraints[k].Exact? ==> !constraints[k].value.Bool?
    ensures InImage(constraints, p) <==> Complete(constraints, p)
  {
    ImageExactly(constraints, p);
    if Complete(constraints, p) {
      forall k | k in constraints && constraints[k].Exact?
        ensures p[k] == constraints[k].value
      {
        assert Accepts(constraints[k], p[k]);
      }
    }
  }

  // ---------- the companions ----------

  function MissingKeys(constraints: map<string, Constraint>, choices: Choices): (r: seq<string>)
    ensures forall k :: k in r <==> k in constraints && !constraints[k].Exact? && k !in choices
  {
    Ordering.SortedSet(set k | k in constraints && !constraints[k].Exact? && k !in choices)
  }

  predicate FullyExact(constraints: map<string, Constraint>) {
    forall k :: k in constraints ==> constraints[k].Exact?
  }

  /** Empty choices suffice exactly when every constraint is exact; and whatever is reported missing
      does stop the substitution. */
  lemma MissingKeysStop(constraints: map<string, Constraint>, choices: Choices)
    ensures MissingKeys(constraints, choices) != [] ==> !Resolvable(constraints, choices)
    ensures Resolvable(constraints, map[]) <==> FullyExact(constraints)
  {
    if MissingKeys(constraints, choices) != [] {
      var k := MissingKeys(constraints, choices)[0];
      assert k in MissingKeys(constraints, choices);
      assert KeyFault(k, constraints[k], choices).Some?;
    }
    forall k | k in constraints
      ensures KeyFault(k, constraints[k], map[]).None? <==> constraints[k].Exact?
    {
    }
  }
}
