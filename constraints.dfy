/**
 * The value constraints of the video overlay: constraints that map a value
 * into an allowed set, a value that always passes through its constraint
 * when set, and a position made of two such values.
 *
 * Values are reals; a bound left at infinity is None.
 */
module Constraints {
  import opened Wrappers

  datatype Constraint =
    | NoConstraint
    /** low=-inf and high=inf by default, here None. */
    | InclusiveConstraint(low: Option<real>, high: Option<real>)
    /** bool(value), with True and False as the numbers 1 and 0. */
    | BooleanConstraint

  function Max(a: real, b: real): real { if a >= b then a else b }
  function Min(a: real, b: real): real { if a <= b then a else b }

  /** InclusiveConstraint() with its default bounds. */
  const Unbounded: Constraint := InclusiveConstraint(None, None)

  /** apply_to */
  function ApplyTo(c: Constraint, value: real): real {
    match c
    case NoConstraint => value
    case InclusiveConstraint(low, high) =>
      var raised := if low.Some? then Max(low.value, value) else value;
      if high.Some? then Min(raised, high.value) else raised
    case BooleanConstraint => if value != 0.0 then 1.0 else 0.0
  }

  /** NoConstraint and the default InclusiveConstraint leave every value as it is. */
  lemma IdentityConstraints(value: real)
    ensures ApplyTo(NoConstraint, value) == value
    ensures ApplyTo(Unbounded, value) == value
  {
  }

  /**
   * min(max(low, v), high) lies in [low, high] when low <= high, and is v
   * exactly when v is already inside.
   */
  lemma InclusiveBounds(low: real, high: real, value: real)
    requires low <= high
    ensures var r := ApplyTo(InclusiveConstraint(Some(low), Some(high)), value);
            low <= r <= high && (r == value <==> low <= value <= high)
  {
  }

  /** With only one bound, the result is on that bound's side. */
  lemma HalfOpenBounds(bound: real, value: real)
    ensures ApplyTo(InclusiveConstraint(Some(bound), None), value) >= bound
    ensures ApplyTo(InclusiveConstraint(None, Some(bound)), value) <= bound
  {
  }

  /** Applying any constraint twice is applying it once, whatever its bounds. */
  lemma ApplyIdempotent(c: Constraint, value: real)
    ensures ApplyTo(c, ApplyTo(c, value)) == ApplyTo(c, value)
  {
  }

  /** A BooleanConstraint yields only 0 or 1. */
  lemma BooleanValues(value: real)
    ensures ApplyTo(BooleanConstraint, value) in {0.0, 1.0}
    ensures ApplyTo(BooleanConstraint, value) == 0.0 <==> value == 0.0
  {
  }

  class ConstraintedValue {
    var val: real
    var constraint: Constraint

    /** A value that already satisfies its constraint. */
    predicate Conforms()
      reads this
    {
      ApplyTo(constraint, val) == val
    }

    /** The initial value is stored as given, without applying the constraint. */
    constructor (value: real, constraint: Constraint)
      ensures val == value && this.constraint == constraint
    {
      this.constraint := constraint;
      val := value;
    }

    /** The value setter: what is stored is the constrained value. */
    method SetValue(newVal: real)
      modifies this`val
      ensures val == ApplyTo(constraint, newVal)
      ensures Conforms()
    {
      ApplyIdempotent(constraint, newVal);
      val := ApplyTo(constraint, newVal);
    }

    /** The constraint setter re-applies the new constraint to the current value. */
    method SetConstraint(newConstraint: Constraint)
      modifies this
      ensures constraint == newConstraint && val == ApplyTo(newConstraint, old(val))
      ensures Conforms()
    {
      constraint := newConstraint;
      SetValue(val);
    }

    /** The constraint deleter installs NoConstraint; the value stays. */
    method DeleteConstraint()
      modifies this
      ensures constraint == NoConstraint && val == old(val)
      ensures Conforms()
    {
      SetConstraint(NoConstraint);
    }
  }

  class ConstraintedPosition {
    const x: ConstraintedValue
    const y: ConstraintedValue

    /** Both coordinates start unconstrained. */
    constructor (x: real, y: real)
      ensures fresh(this.x) && fresh(this.y) && this.x != this.y
      ensures this.x.val == x && this.x.constraint == NoConstraint
      ensures this.y.val == y && this.y.constraint == NoConstraint
    {
      this.x := new ConstraintedValue(x, NoConstraint);
      this.y := new ConstraintedValue(y, NoConstraint);
    }

    /** __str__: '(x=<x>, y=<y>)', with `str` the text of one coordinate. */
    function Text(str: real -> string): (t: string)
      reads this, x, y
      ensures |t| == 8 + |str(x.val)| + |str(y.val)|
      ensures t[..3] == "(x=" && t[3..3 + |str(x.val)|] == str(x.val)
      ensures t[3 + |str(x.val)|..7 + |str(x.val)|] == ", y="
      ensures t[7 + |str(x.val)|..|t| - 1] == str(y.val) && t[|t| - 1] == ')'
    {
      "(x=" + str(x.val) + ", y=" + str(y.val) + ")"
    }
  }
}
