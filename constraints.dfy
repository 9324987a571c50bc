/**
  Constraints of the query language (src/ql/constraints.rs): the leaf
  `Constraint` and its builder, the relational operators, and the `And`/`Or`
  combinators.

  The leaf's own evaluation is not defined by the repository (its body is
  `todo!()`), so a tree is evaluated against a caller-supplied `holds`
  predicate that decides each leaf; only the combinators' meaning is fixed here.
*/
module Constraints {
  import opened Options
  import opened Errors
  import opened Values

  /** A "constraint relational operator": `=`, `<`, `>`, `<=`, `>=`. */
  datatype ConstraintOp = Eq | Lt | Gt | Le | Ge

  /** A leaf constraint: a field, an operator and the value to compare against. */
  datatype Constraint = Constraint(fieldName: string, op: ConstraintOp, value: ColumnValue)
  {
    /** `Constraint::builder`: a builder with no field set. */
    static function Builder(): (b: ConstraintBuilder)
      ensures b.fieldName == None && b.op == None && b.value == None
    {
      ConstraintBuilder(None, None, None)
    }
  }

  /** The names `build` reports for a missing field, in the order it checks them. */
  const FieldNameField := "Constraint.field_name"
  const OpField := "Constraint.op"
  const ValueField := "Constraint.value"

  /** Accumulates the three parts of a `Constraint`; each setter overwrites one part. */
  datatype ConstraintBuilder = ConstraintBuilder(
    fieldName: Option<string>,
    op: Option<ConstraintOp>,
    value: Option<ColumnValue>)
  {
    /** Sets the field name; the operator and the value are untouched. */
    function FieldName(f: string): (b: ConstraintBuilder)
      ensures b.fieldName == Some(f) && b.op == op && b.value == value
    {
      this.(fieldName := Some(f))
    }

    /** Sets the operator; the field name and the value are untouched. */
    function Op(o: ConstraintOp): (b: ConstraintBuilder)
      ensures b.fieldName == fieldName && b.op == Some(o) && b.value == value
    {
      this.(op := Some(o))
    }

    /** Sets the value; the field name and the operator are untouched. */
    function Value(v: ColumnValue): (b: ConstraintBuilder)
      ensures b.fieldName == fieldName && b.op == op && b.value == Some(v)
    {
      this.(value := Some(v))
    }

    /**
      Builds the constraint. It fails with `RequiredFieldIsNone` naming the
      first missing field in the order field name, operator, value, and
      otherwise returns exactly the stored parts. Each `.value` below is reached
      only once its field is known to be present.
    */
    function Build(): (r: QlResult<Constraint>)
      ensures r.Ok? <==> fieldName.Some? && op.Some? && value.Some?
      ensures fieldName.None? ==> r == Err(RequiredFieldIsNone(FieldNameField))
      ensures fieldName.Some? && op.None? ==> r == Err(RequiredFieldIsNone(OpField))
      ensures fieldName.Some? && op.Some? && value.None? ==> r == Err(RequiredFieldIsNone(ValueField))
      ensures r.Ok? ==>
        Some(r.value.fieldName) == fieldName && Some(r.value.op) == op && Some(r.value.value) == value
    {
      if fieldName.None? then Err(RequiredFieldIsNone(FieldNameField))
      else if op.None? then Err(RequiredFieldIsNone(OpField))
      else if value.None? then Err(RequiredFieldIsNone(ValueField))
      else Ok(Constraint(fieldName.value, op.value, value.value))
    }
  }

  /** A fresh builder cannot build: the field name is reported missing first. */
  lemma FreshBuilderFails()
    ensures Constraint.Builder().Build() == Err(RequiredFieldIsNone(FieldNameField))
  {
  }

  /** Setting a field twice keeps only the second value. */
  lemma SettersLastWriteWins(b: ConstraintBuilder, f1: string, f2: string, o1: ConstraintOp, o2: ConstraintOp,
                             v1: ColumnValue, v2: ColumnValue)
    ensures b.FieldName(f1).FieldName(f2) == b.FieldName(f2)
    ensures b.Op(o1).Op(o2) == b.Op(o2)
    ensures b.Value(v1).Value(v2) == b.Value(v2)
  {
  }

  /** Setters of different fields commute, since each touches only its own field. */
  lemma SettersCommute(b: ConstraintBuilder, f: string, o: ConstraintOp, v: ColumnValue)
    ensures b.FieldName(f).Op(o) == b.Op(o).FieldName(f)
    ensures b.FieldName(f).Value(v) == b.Value(v).FieldName(f)
    ensures b.Op(o).Value(v) == b.Value(v).Op(o)
  {
  }

  /** Building after setting all three parts returns exactly those parts. */
  lemma BuildRoundTrip(f: string, o: ConstraintOp, v: ColumnValue)
    ensures Constraint.Builder().FieldName(f).Op(o).Value(v).Build() == Ok(Constraint(f, o, v))
  {
  }

  // ---------------------------------------------------------------------------
  // Chains of setter calls, as in `Constraint::builder().op(..).field_name(..)...`

  /** One setter call on a `ConstraintBuilder`. */
  datatype SetterCall =
    | SetFieldName(f: string)
    | SetOp(o: ConstraintOp)
    | SetValue(v: ColumnValue)

  /** The builder after one call. */
  function Apply(b: ConstraintBuilder, call: SetterCall): ConstraintBuilder {
    match call
    case SetFieldName(f) => b.FieldName(f)
    case SetOp(o) => b.Op(o)
    case SetValue(v) => b.Value(v)
  }

  /** The builder after a chain of calls, made left to right. */
  function ApplyAll(b: ConstraintBuilder, calls: seq<SetterCall>): ConstraintBuilder
    decreases |calls|
  {
    if calls == [] then b else ApplyAll(Apply(b, calls[0]), calls[1..])
  }

  /** The argument of the last `field_name` call in `calls`, if any. */
  function LastFieldName(calls: seq<SetterCall>): Option<string>
    decreases |calls|
  {
    if calls == [] then None
    else if calls[|calls| - 1].SetFieldName? then Some(calls[|calls| - 1].f)
    else LastFieldName(calls[..|calls| - 1])
  }

  /** The argument of the last `op` call in `calls`, if any. */
  function LastOp(calls: seq<SetterCall>): Option<ConstraintOp>
    decreases |calls|
  {
    if calls == [] then None
    else if calls[|calls| - 1].SetOp? then Some(calls[|calls| - 1].o)
    else LastOp(calls[..|calls| - 1])
  }

  /** The argument of the last `value` call in `calls`, if any. */
  function LastValue(calls: seq<SetterCall>): Option<ColumnValue>
    decreases |calls|
  {
    if calls == [] then None
    else if calls[|calls| - 1].SetValue? then Some(calls[|calls| - 1].v)
    else LastValue(calls[..|calls| - 1])
  }

  function OrElse<T>(a: Option<T>, b: Option<T>): Option<T> {
    if a.Some? then a else b
  }

  /** Applying one more call is the same as extending the chain. */
  lemma {:induction false} ApplyAllSnoc(b: ConstraintBuilder, calls: seq<SetterCall>, call: SetterCall)
    ensures ApplyAll(b, calls + [call]) == Apply(ApplyAll(b, calls), call)
    decreases |calls|
  {
    if calls == [] {
      assert calls + [call] == [call];
    } else {
      assert (calls + [call])[1..] == calls[1..] + [call];
      ApplyAllSnoc(Apply(b, calls[0]), calls[1..], call);
    }
  }

  /**
    Last write wins over any chain of setter calls: each field ends up holding
    the argument of the last call that set it, or its starting value if no
    call set it.
  */
  lemma {:induction false} ChainLastWriteWins(b: ConstraintBuilder, calls: seq<SetterCall>)
    ensures ApplyAll(b, calls).fieldName == OrElse(LastFieldName(calls), b.fieldName)
    ensures ApplyAll(b, calls).op == OrElse(LastOp(calls), b.op)
    ensures ApplyAll(b, calls).value == OrElse(LastValue(calls), b.value)
    decreases |calls|
  {
    if calls != [] {
      var init, last := calls[..|calls| - 1], calls[|calls| - 1];
      assert calls == init + [last];
      ChainLastWriteWins(b, init);
      ApplyAllSnoc(b, init, last);
    }
  }

  /**
    Building a fresh builder after any chain of setter calls: the outcome does
    not depend on the order of the calls. It succeeds exactly when every part
    was set, with the last argument given to each, and otherwise names the
    first missing part in the fixed order field name, operator, value.
  */
  lemma ChainBuild(calls: seq<SetterCall>)
    ensures var r := ApplyAll(Constraint.Builder(), calls).Build();
      && (r.Ok? <==> LastFieldName(calls).Some? && LastOp(calls).Some? && LastValue(calls).Some?)
      && (r.Ok? ==> r.value == Constraint(LastFieldName(calls).value, LastOp(calls).value, LastValue(calls).value))
      && (LastFieldName(calls).None? ==> r == Err(RequiredFieldIsNone(FieldNameField)))
      && (LastFieldName(calls).Some? && LastOp(calls).None? ==> r == Err(RequiredFieldIsNone(OpField)))
      && (LastFieldName(calls).Some? && LastOp(calls).Some? && LastValue(calls).None? ==>
            r == Err(RequiredFieldIsNone(ValueField)))
  {
    ChainLastWriteWins(Constraint.Builder(), calls);
  }

  // ---------------------------------------------------------------------------
  // The combinator tree (`ComputableConstraint` and its implementors)

  /**
    A computable constraint: a leaf, or an `AndConstraint` / `OrConstraint`
    that exclusively owns its two operands.
  */
  datatype ComputableConstraint =
    | Single(constraint: Constraint)
    | AndConstraint(left: ComputableConstraint, right: ComputableConstraint)
    | OrConstraint(left: ComputableConstraint, right: ComputableConstraint)
  {
    /** Whether the constraint is satisfied, given how each leaf evaluates. */
    function Compute(holds: Constraint -> bool): bool {
      match this
      case Single(c) => holds(c)
      case AndConstraint(l, r) => l.Compute(holds) && r.Compute(holds)
      case OrConstraint(l, r) => l.Compute(holds) || r.Compute(holds)
    }

    /** The leaves, left to right. */
    function Leaves(): (s: seq<Constraint>)
      ensures |s| >= 1
    {
      match this
      case Single(c) => [c]
      case AndConstraint(l, r) => l.Leaves() + r.Leaves()
      case OrConstraint(l, r) => l.Leaves() + r.Leaves()
    }

    /** Built from leaves with `And` only. */
    predicate OnlyAnd() {
      match this
      case Single(_) => true
      case AndConstraint(l, r) => l.OnlyAnd() && r.OnlyAnd()
      case OrConstraint(_, _) => false
    }

    /** Built from leaves with `Or` only. */
    predicate OnlyOr() {
      match this
      case Single(_) => true
      case AndConstraint(_, _) => false
      case OrConstraint(l, r) => l.OnlyOr() && r.OnlyOr()
    }
  }

  /** `AndConstraint` holds exactly when both operands hold. */
  lemma AndComputes(l: ComputableConstraint, r: ComputableConstraint, holds: Constraint -> bool)
    ensures AndConstraint(l, r).Compute(holds) <==> l.Compute(holds) && r.Compute(holds)
  {
  }

  /** `OrConstraint` holds exactly when at least one operand holds. */
  lemma OrComputes(l: ComputableConstraint, r: ComputableConstraint, holds: Constraint -> bool)
    ensures OrConstraint(l, r).Compute(holds) <==> l.Compute(holds) || r.Compute(holds)
  {
  }

  /** A tree of `And`s holds exactly when every one of its leaves holds. */
  lemma {:induction false} AndTreeHoldsIffAllLeaves(c: ComputableConstraint, holds: Constraint -> bool)
    requires c.OnlyAnd()
    ensures c.Compute(holds) <==> forall x :: x in c.Leaves() ==> holds(x)
  {
    match c
    case Single(_) =>
    case AndConstraint(l, r) =>
      AndTreeHoldsIffAllLeaves(l, holds);
      AndTreeHoldsIffAllLeaves(r, holds);
  }

  /** A tree of `Or`s holds exactly when at least one of its leaves holds. */
  lemma {:induction false} OrTreeHoldsIffSomeLeaf(c: ComputableConstraint, holds: Constraint -> bool)
    requires c.OnlyOr()
    ensures c.Compute(holds) <==> exists x :: x in c.Leaves() && holds(x)
  {
    match c
    case Single(x) =>
      assert x in c.Leaves();
    case OrConstraint(l, r) =>
      OrTreeHoldsIffSomeLeaf(l, holds);
      OrTreeHoldsIffSomeLeaf(r, holds);
  }

  /** The result depends only on how the tree's own leaves evaluate. */
  lemma {:induction false} ComputeDependsOnlyOnLeaves(c: ComputableConstraint, p: Constraint -> bool, q: Constraint -> bool)
    requires forall x :: x in c.Leaves() ==> p(x) == q(x)
    ensures c.Compute(p) == c.Compute(q)
  {
    match c
    case Single(_) =>
    case AndConstraint(l, r) =>
      ComputeDependsOnlyOnLeaves(l, p, q);
      ComputeDependsOnlyOnLeaves(r, p, q);
    case OrConstraint(l, r) =>
      ComputeDependsOnlyOnLeaves(l, p, q);
      ComputeDependsOnlyOnLeaves(r, p, q);
  }

  /**
    `And` and `Or` are monotone: if every leaf that holds under `p` also holds
    under `q`, the whole tree holds under `q` whenever it holds under `p`.
  */
  lemma {:induction false} ComputeMonotone(c: ComputableConstraint, p: Constraint -> bool, q: Constraint -> bool)
    requires forall x :: x in c.Leaves() && p(x) ==> q(x)
    ensures c.Compute(p) ==> c.Compute(q)
  {
    match c
    case Single(_) =>
    case AndConstraint(l, r) =>
      ComputeMonotone(l, p, q);
      ComputeMonotone(r, p, q);
    case OrConstraint(l, r) =>
      ComputeMonotone(l, p, q);
      ComputeMonotone(r, p, q);
  }
}
