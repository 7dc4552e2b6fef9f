/** SQL's three-valued truth domain and its connectives, as tabulated for
    `<search condition>` in subclause 8.12 of ISO/IEC 9075:1992 (SQL-92).
    A WHERE clause keeps a row exactly when its condition is `True`. */
module Kleene {

  datatype TruthValue = True | False | Unknown

  /** NOT: swaps True and False, leaves Unknown alone. */
  function Not(v: TruthValue): (r: TruthValue)
    ensures r == True <==> v == False
    ensures r == False <==> v == True
  {
    match v
    case True => False
    case False => True
    case Unknown => Unknown
  }

  /** AND: False dominates, then Unknown. */
  function And(a: TruthValue, b: TruthValue): (r: TruthValue)
    ensures r == True <==> a == True && b == True
    ensures r == False <==> a == False || b == False
  {
    match (a, b)
    case (False, _) => False
    case (_, False) => False
    case (True, True) => True
    case (_, _) => Unknown
  }

  /** OR: True dominates, then Unknown. */
  function Or(a: TruthValue, b: TruthValue): (r: TruthValue)
    ensures r == True <==> a == True || b == True
    ensures r == False <==> a == False && b == False
  {
    match (a, b)
    case (True, _) => True
    case (_, True) => True
    case (False, False) => False
    case (_, _) => Unknown
  }

  /** `v IS NULL` applied to a boolean value: the test itself is never Unknown. */
  function IsNull(v: TruthValue): (r: TruthValue)
    ensures r != Unknown
    ensures r == True <==> v == Unknown
  {
    if v == Unknown then True else False
  }

  /** Independent reference for the connectives: the usual numeric reading of
      Kleene logic, with False < Unknown < True (ranks 0, 1, 2). */
  function Rank(v: TruthValue): (n: nat)
    ensures n <= 2
  {
    match v
    case False => 0
    case Unknown => 1
    case True => 2
  }

  function Min(x: nat, y: nat): nat { if x <= y then x else y }

  function Max(x: nat, y: nat): nat { if x <= y then y else x }

  /** AND is the minimum, OR the maximum and NOT the mirror image of the rank,
      and Rank loses no information. */
  lemma ConnectivesMatchRanks(a: TruthValue, b: TruthValue)
    ensures Rank(And(a, b)) == Min(Rank(a), Rank(b))
    ensures Rank(Or(a, b)) == Max(Rank(a), Rank(b))
    ensures Rank(Not(a)) == 2 - Rank(a)
    ensures Rank(a) == Rank(b) ==> a == b
  {
  }

  /** NOT is an involution and De Morgan's laws hold in all nine cases; so
      the fourth partition filter, NOT L AND NOT R, is NOT (L OR R). */
  lemma DeMorgan(a: TruthValue, b: TruthValue)
    ensures Not(Not(a)) == a
    ensures Not(Or(a, b)) == And(Not(a), Not(b))
    ensures Not(And(a, b)) == Or(Not(a), Not(b))
  {
  }
}
