/** Parameter constraints of a decision envelope, and the check that one constraint narrows another. */
module Constraints {
  import opened Wrappers

  datatype Value = Str(s: string) | Int(n: int) | Bool(b: bool) | Null

  /** Equality as Python sees it: True is 1 and False is 0. */
  predicate PyEq(a: Value, b: Value) {
    if a.Bool? && b.Int? then b.n == (if a.b then 1 else 0)
    else if a.Int? && b.Bool? then a.n == (if b.b then 1 else 0)
    else a == b
  }

  predicate PyIn(v: Value, values: seq<Value>) {
    exists i :: 0 <= i < |values| && PyEq(v, values[i])
  }

  datatype Constraint =
    | Exact(value: Value)
    | Enum(allowed: seq<Value>)
    | IntRange(minInt: Option<int>, maxInt: Option<int>)
    | MoneyRange(currency: string, minAmount: Option<int>, maxAmount: Option<int>)

  const MaxMinorUnits := 1_000_000_000_000_000
  const MaxEnumValues := 64

  predicate ValidAmount(n: int) {
    0 <= n <= MaxMinorUnits
  }

  /** The shapes the constraint constructor accepts. */
  predicate WellFormed(c: Constraint) {
    match c
    case Exact(_) => true
    case Enum(allowed) =>
      0 < |allowed| <= MaxEnumValues && forall i, j :: 0 <= i < j < |allowed| ==> !PyEq(allowed[i], allowed[j])
    case IntRange(lo, hi) => (lo.Some? || hi.Some?) && (lo.Some? && hi.Some? ==> lo.value <= hi.value)
    case MoneyRange(_, lo, hi) =>
      && (lo.Some? || hi.Some?) && (lo.Some? && hi.Some? ==> lo.value <= hi.value)
      && (lo.Some? ==> ValidAmount(lo.value)) && (hi.Some? ==> ValidAmount(hi.value))
  }

  predicate IsRange(c: Constraint) {
    c.IntRange? || c.MoneyRange?
  }

  /** Why a value or a constraint is refused. InvalidAmount is the error of the amount type itself. */
  datatype Refusal = OutOfBounds | NotAnInteger | InvalidAmount | Widening | Incomparable

  function Between(n: int, lo: Option<int>, hi: Option<int>): Option<Refusal> {
    if lo.Some? && n < lo.value then Some(OutOfBounds)
    else if hi.Some? && n > hi.value then Some(OutOfBounds)
    else None
  }

  function Check(c: Constraint, v: Value): Option<Refusal> {
    match c
    case Exact(value) => if PyEq(v, value) then None else Some(OutOfBounds)
    case Enum(allowed) => if PyIn(v, allowed) then None else Some(OutOfBounds)
    case IntRange(lo, hi) => if !v.Int? then Some(NotAnInteger) else Between(v.n, lo, hi)
    case MoneyRange(_, lo, hi) =>
      if !v.Int? then Some(NotAnInteger)
      else if !ValidAmount(v.n) then Some(InvalidAmount)
      else Between(v.n, lo, hi)
  }

  predicate Accepts(c: Constraint, v: Value) {
    Check(c, v).None?
  }

  /** The first refusal of a list of values. */
  function CheckAll(c: Constraint, values: seq<Value>): (r: Option<Refusal>)
    ensures r.None? <==> forall i :: 0 <= i < |values| ==> Accepts(c, values[i])
  {
    if values == [] then None
    else
      var first := Check(c, values[0]);
      if first.Some? then first else CheckAll(c, values[1..])
  }

  function BoundsNarrower(lo: Option<int>, hi: Option<int>, parentLo: Option<int>,
                          parentHi: Option<int>): Option<Refusal> {
    if parentLo.Some? && (lo.None? || lo.value < parentLo.value) then Some(Widening)
    else if parentHi.Some? && (hi.None? || hi.value > parentHi.value) then Some(Widening)
    else None
  }

  function NarrowCheck(child: Constraint, parent: Constraint): Option<Refusal> {
    match (child, parent)
    case (Exact(value), _) => Check(parent, value)
    case (_, Exact(_)) => Some(Widening)
    case (Enum(xs), Enum(ys)) =>
      if forall i :: 0 <= i < |xs| ==> PyIn(xs[i], ys) then None else Some(Widening)
    case (IntRange(lo, hi), IntRange(parentLo, parentHi)) => BoundsNarrower(lo, hi, parentLo, parentHi)
    case (MoneyRange(currency, lo, hi), MoneyRange(parentCurrency, parentLo, parentHi)) =>
      if currency != parentCurrency then Some(Incomparable) else BoundsNarrower(lo, hi, parentLo, parentHi)
    case (Enum(xs), IntRange(_, _)) => CheckAll(parent, xs)
    case (Enum(xs), MoneyRange(_, _, _)) => CheckAll(parent, xs)
    case _ => Some(Incomparable)
  }

  predicate Narrower(child: Constraint, parent: Constraint) {
    NarrowCheck(child, parent).None?
  }

  // ---------- equality ----------

  lemma PyEqIsEquivalence(a: Value, b: Value, c: Value)
    ensures PyEq(a, a) && (PyEq(a, b) ==> PyEq(b, a)) && (PyEq(a, b) && PyEq(b, c) ==> PyEq(a, c))
  {
  }

  lemma PyInRespects(v: Value, w: Value, values: seq<Value>)
    requires PyEq(v, w) && PyIn(w, values)
    ensures PyIn(v, values)
  {
    var i :| 0 <= i < |values| && PyEq(w, values[i]);
    PyEqIsEquivalence(v, w, values[i]);
  }

  lemma MemberIsPyIn(values: seq<Value>, i: nat)
    requires i < |values|
    ensures PyIn(values[i], values)
  {
    PyEqIsEquivalence(values[i], values[i], values[i]);
  }

  /** Equal values are treated alike, except that a range refuses a boolean. */
  lemma AcceptsRespects(c: Constraint, v: Value, w: Value)
    requires PyEq(v, w) && Accepts(c, w)
    ensures Accepts(c, v) <==> !(v.Bool? && IsRange(c))
  {
    match c
    case Exact(value) => PyEqIsEquivalence(v, w, value);
    case Enum(allowed) => PyInRespects(v, w, allowed);
    case _ =>
  }

  // ---------- soundness ----------

  lemma EnumSound(xs: seq<Value>, parent: Constraint, v: Value)
    requires Narrower(Enum(xs), parent) && PyIn(v, xs)
    ensures Accepts(parent, v) <==> !(v.Bool? && IsRange(parent))
  {
    var i :| 0 <= i < |xs| && PyEq(v, xs[i]);
    if parent.Enum? {
      assert PyIn(xs[i], parent.allowed);
    }
    assert Accepts(parent, xs[i]);
    AcceptsRespects(parent, v, xs[i]);
  }

  /** A value accepted by a narrower constraint is accepted by the wider one, with one exception that
      is always an exception: a boolean under a range. */
  lemma NarrowingSoundExactly(child: Constraint, parent: Constraint, v: Value)
    requires Narrower(child, parent) && Accepts(child, v)
    ensures Accepts(parent, v) <==> !(v.Bool? && IsRange(parent))
  {
    match child
    case Exact(value) => AcceptsRespects(parent, v, value);
    case Enum(xs) => EnumSound(xs, parent, v);
    case _ =>
  }

  /** The exception does occur: the constant 1 narrows a range over 1, and accepts True. */
  lemma BooleanEscapesNarrowing()
    ensures var child, parent := Exact(Int(1)), IntRange(Some(0), Some(5));
            WellFormed(child) && WellFormed(parent) && Narrower(child, parent)
            && Accepts(child, Bool(true)) && !Accepts(parent, Bool(true))
  {
    assert PyEq(Bool(true), Int(1));
  }

  // ---------- an order ----------

  lemma NarrowingReflexive(c: Constraint)
    ensures Narrower(c, c)
  {
    match c
    case Exact(value) => PyEqIsEquivalence(value, value, value);
    case Enum(xs) =>
      forall i | 0 <= i < |xs|
        ensures PyIn(xs[i], xs)
      {
        MemberIsPyIn(xs, i);
      }
    case _ =>
  }

  ghost predicate HasBoolean(c: Constraint) {
    match c
    case Exact(value) => value.Bool?
    case Enum(allowed) => exists i :: 0 <= i < |allowed| && allowed[i].Bool?
    case _ => false
  }

  lemma EnumTransitive(xs: seq<Value>, middle: Constraint, top: Constraint)
    requires Narrower(Enum(xs), middle) && Narrower(middle, top)
    ensures Narrower(Enum(xs), top) <==> !(IsRange(top) && HasBoolean(Enum(xs)))
  {
    forall i | 0 <= i < |xs|
      ensures Accepts(top, xs[i]) <==> !(xs[i].Bool? && IsRange(top))
    {
      MemberIsPyIn(xs, i);
      EnumInto(xs, middle, i);
      NarrowingSoundExactly(middle, top, xs[i]);
    }
  }

  lemma EnumInto(xs: seq<Value>, parent: Constraint, i: nat)
    requires Narrower(Enum(xs), parent) && i < |xs|
    ensures Accepts(parent, xs[i])
  {
    if parent.Enum? {
      assert PyIn(xs[i], parent.allowed);
    }
  }

  /** Narrowing chains, except from a boolean constant to a range, and there it never does. */
  lemma NarrowingTransitiveExactly(child: Constraint, middle: Constraint, top: Constraint)
    requires Narrower(child, middle) && Narrower(middle, top)
    ensures Narrower(child, top) <==> !(IsRange(top) && HasBoolean(child))
  {
    match child
    case Exact(value) => NarrowingSoundExactly(middle, top, value);
    case Enum(xs) => EnumTransitive(xs, middle, top);
    case _ =>
  }

  lemma BooleanBreaksTransitivity()
    ensures var a, b, c := Exact(Bool(true)), Exact(Int(1)), IntRange(Some(0), Some(5));
            Narrower(a, b) && Narrower(b, c) && !Narrower(a, c)
  {
    assert PyEq(Bool(true), Int(1));
  }

  // ---------- completeness ----------

  ghost predicate Included(child: Constraint, parent: Constraint) {
    forall v :: Accepts(child, v) ==> Accepts(parent, v)
  }

  /** A value of an integer range that lies below a bound the range does not respect. */
  function BelowFloor(lo: Option<int>, hi: Option<int>, floor: int): int {
    if lo.Some? then lo.value else if hi.Some? && hi.value < floor then hi.value else floor - 1
  }

  function AboveCeiling(lo: Option<int>, hi: Option<int>, ceiling: int): int {
    if hi.Some? then hi.value else if lo.Some? && lo.value > ceiling then lo.value else ceiling + 1
  }

  lemma IntRangesExact(child: Constraint, parent: Constraint)
    requires child.IntRange? && parent.IntRange? && WellFormed(child) && WellFormed(parent)
    ensures Narrower(child, parent) <==> Included(child, parent)
  {
    if Narrower(child, parent) {
      forall v | Accepts(child, v)
        ensures Accepts(parent, v)
      {
        NarrowingSoundExactly(child, parent, v);
      }
    } else if parent.minInt.Some? && (child.minInt.None? || child.minInt.value < parent.minInt.value) {
      var v := Int(BelowFloor(child.minInt, child.maxInt, parent.minInt.value));
      assert Accepts(child, v) && !Accepts(parent, v);
    } else {
      var v := Int(AboveCeiling(child.minInt, child.maxInt, parent.maxInt.value));
      assert Accepts(child, v) && !Accepts(parent, v);
    }
  }

  lemma EnumsExact(child: Constraint, parent: Constraint)
    requires child.Enum? && parent.Enum?
    ensures Narrower(child, parent) <==> Included(child, parent)
  {
    if Narrower(child, parent) {
      forall v | Accepts(child, v)
        ensures Accepts(parent, v)
      {
        EnumSound(child.allowed, parent, v);
      }
    }
    if Included(child, parent) {
      forall i | 0 <= i < |child.allowed|
        ensures PyIn(child.allowed[i], parent.allowed)
      {
        MemberIsPyIn(child.allowed, i);
        assert Accepts(child, child.allowed[i]);
      }
    }
  }

  function Floor(c: Constraint): int
    requires c.MoneyRange?
  {
    if c.minAmount.Some? then c.minAmount.value else 0
  }

  function Ceiling(c: Constraint): int
    requires c.MoneyRange?
  {
    if c.maxAmount.Some? then c.maxAmount.value else MaxMinorUnits
  }

  lemma MoneyIncluded(child: Constraint, parent: Constraint)
    requires child.MoneyRange? && parent.MoneyRange? && WellFormed(child) && WellFormed(parent)
    ensures Included(child, parent) <==> Floor(parent) <= Floor(child) && Ceiling(child) <= Ceiling(parent)
  {
    assert Accepts(child, Int(Floor(child))) && Accepts(child, Int(Ceiling(child)));
    forall v
      ensures Accepts(parent, v) <==> v.Int? && Floor(parent) <= v.n <= Ceiling(parent)
      ensures Accepts(child, v) <==> v.Int? && Floor(child) <= v.n <= Ceiling(child)
    {
    }
  }

  /** Monetary ranges of one currency: the check is inclusion, less two cases it refuses although the
      amounts are included, an open end of the child against a bound the amount type implies. */
  lemma MoneyRangesExact(child: Constraint, parent: Constraint)
    requires child.MoneyRange? && parent.MoneyRange? && WellFormed(child) && WellFormed(parent)
    ensures Narrower(child, parent) <==>
              && child.currency == parent.currency && Included(child, parent)
              && !(child.minAmount.None? && parent.minAmount == Some(0))
              && !(child.maxAmount.None? && parent.maxAmount == Some(MaxMinorUnits))
  {
    MoneyIncluded(child, parent);
  }

  /** Every well-formed constraint accepts some value that is not a boolean. */
  function Sample(c: Constraint): (v: Value)
    requires WellFormed(c)
    ensures !v.Bool? && Accepts(c, v)
  {
    match c
    case Exact(value) => Unboxed(value)
    case Enum(allowed) =>
      var v := Unboxed(allowed[0]);
      assert PyEq(v, allowed[0]);
      v
    case IntRange(lo, hi) => Int(if lo.Some? then lo.value else hi.value)
    case MoneyRange(_, lo, hi) => Int(if lo.Some? then lo.value else hi.value)
  }

  /** The integer that Python takes a boolean for. */
  function Unboxed(v: Value): (w: Value)
    ensures !w.Bool? && PyEq(w, v)
  {
    if v.Bool? then Int(if v.b then 1 else 0) else v
  }
}
