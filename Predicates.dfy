/** WHERE-clause conditions as the oracle builds them, their three-valued
    meaning on a row, and the predicate variants the oracle starts from. */
module Predicates {
  import opened Kleene

  /** A boolean condition. `Leaf` stands for a randomly generated predicate
      whose value on a row is given by the row; the other constructors are
      the generator's `negatePredicate`, `andPredicate`, `orPredicate` and
      `isNull` capabilities. */
  datatype Expr =
    | Leaf(id: nat)
    | Negation(operand: Expr)
    | Conjunction(left: Expr, right: Expr)
    | Disjunction(left: Expr, right: Expr)
    | NullTest(operand: Expr)

  /** The value of a condition on a row whose leaf predicates evaluate as `v`. */
  function Eval(e: Expr, v: nat -> TruthValue): TruthValue
  {
    match e
    case Leaf(id) => v(id)
    case Negation(x) => Not(Eval(x, v))
    case Conjunction(l, r) => And(Eval(l, v), Eval(r, v))
    case Disjunction(l, r) => Or(Eval(l, v), Eval(r, v))
    case NullTest(x) => IsNull(Eval(x, v))
  }

  /** A predicate together with its negation and its IS NULL test. */
  datatype PredicateVariants =
    PredicateVariants(condition: Expr, negatedCondition: Expr, isNullCondition: Expr)

  /** On a row valued by `v`, the three members evaluate to `p`, `NOT p` and
      `p IS NULL`. This is all the oracle assumes about a variant triple. */
  ghost predicate Agrees(pv: PredicateVariants, v: nat -> TruthValue)
  {
    && Eval(pv.negatedCondition, v) == Not(Eval(pv.condition, v))
    && Eval(pv.isNullCondition, v) == IsNull(Eval(pv.condition, v))
  }

  /** The triple built syntactically from one predicate agrees on every row. */
  lemma SyntacticVariantsAgree(p: Expr, v: nat -> TruthValue)
    ensures Agrees(PredicateVariants(p, Negation(p), NullTest(p)), v)
  {
  }

  /** The rows a `WHERE e` query returns, in table order: exactly those on
      which `e` is True. */
  function Where<R(!new)>(rows: seq<R>, e: Expr, val: R -> nat -> TruthValue): (kept: seq<R>)
    ensures |kept| <= |rows|
  {
    if rows == [] then []
    else (if Eval(e, val(rows[0])) == True then [rows[0]] else []) + Where(rows[1..], e, val)
  }

  /** A row is in the result of `WHERE e` exactly when it is in the table and
      `e` is True on it. */
  lemma {:induction false} WhereMembership<R(!new)>(rows: seq<R>, e: Expr, val: R -> nat -> TruthValue, x: R)
    ensures x in Where(rows, e, val) <==> x in rows && Eval(e, val(x)) == True
  {
    if rows != [] {
      WhereMembership(rows[1..], e, val, x);
      assert rows == [rows[0]] + rows[1..];
    }
  }
}
