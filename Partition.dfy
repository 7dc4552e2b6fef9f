/** The WHERE filters of the ternary-logic partitioning oracle and which rows
    each of them keeps. The single-predicate form is an exact partition; the
    two-predicate form keeps a row whose two predicates are both True three
    times and every other row once. */
module Partition {
  import opened Kleene
  import opened Predicates

  /** The five filters of the two-predicate cycle, in query order:
      L, R, (L OR R) IS NULL, NOT L AND NOT R, L AND R. */
  function PartitionFilters(left: PredicateVariants, right: PredicateVariants): (fs: seq<Expr>)
    ensures |fs| == 5
    ensures fs[0] == left.condition && fs[1] == right.condition
  {
    [ left.condition,
      right.condition,
      NullTest(Disjunction(left.condition, right.condition)),
      Conjunction(left.negatedCondition, right.negatedCondition),
      Conjunction(left.condition, right.condition) ]
  }

  /** The three filters of the single-predicate form: p, NOT p, p IS NULL. */
  function LegacyFilters(p: PredicateVariants): (fs: seq<Expr>)
    ensures |fs| == 3 && fs[0] == p.condition
    ensures forall v :: Agrees(p, v) ==>
      Eval(fs[1], v) == Not(Eval(fs[0], v)) && Eval(fs[2], v) == IsNull(Eval(fs[0], v))
  {
    [p.condition, p.negatedCondition, p.isNullCondition]
  }

  /** The values of the five filters on a row where L is `l` and R is `r`. */
  function FilterValues(l: TruthValue, r: TruthValue): (vs: seq<TruthValue>)
    ensures |vs| == 5
  {
    [l, r, IsNull(Or(l, r)), And(Not(l), Not(r)), And(l, r)]
  }

  /** The values of the three single-predicate filters on a row where p is `v`. */
  function LegacyValues(v: TruthValue): (vs: seq<TruthValue>)
    ensures |vs| == 3
  {
    [v, Not(v), IsNull(v)]
  }

  /** The positions of the filters that keep a row. */
  function TrueAt(vs: seq<TruthValue>): set<nat>
  {
    set i | 0 <= i < |vs| && vs[i] == True
  }

  /** The filter expressions evaluate, on any row where both variant triples
      agree, to `FilterValues` of the two predicates' values. */
  lemma PartitionFiltersEvaluate(left: PredicateVariants, right: PredicateVariants, v: nat -> TruthValue)
    requires Agrees(left, v) && Agrees(right, v)
    ensures forall i :: 0 <= i < 5 ==>
      Eval(PartitionFilters(left, right)[i], v)
        == FilterValues(Eval(left.condition, v), Eval(right.condition, v))[i]
  {
  }

  /** Coverage of the nine (L, R) pairs by the five filters: every pair is
      kept by some filter; (True, True) is kept by filters 1, 2 and 5; every
      other pair by exactly one filter, which `CoveringFilter` names. */
  lemma {:induction false} FiveFilterCoverage(l: TruthValue, r: TruthValue)
    ensures TrueAt(FilterValues(l, r)) != {}
    ensures l == True && r == True ==> TrueAt(FilterValues(l, r)) == {0, 1, 4}
    ensures !(l == True && r == True) ==>
      TrueAt(FilterValues(l, r)) == {CoveringFilter(l, r)} && |TrueAt(FilterValues(l, r))| == 1
  {
    var vs := FilterValues(l, r);
    if l == True && r == True {
      assert vs == [True, True, False, False, True];
      assert 0 in TrueAt(vs);
    } else {
      var k := CoveringFilter(l, r);
      assert vs[k] == True;
      forall i | 0 <= i < 5 && i != k
        ensures vs[i] != True
      {
      }
      assert TrueAt(vs) == {k};
    }
  }

  /** The one filter that keeps a row unless L and R are both True. */
  function CoveringFilter(l: TruthValue, r: TruthValue): (k: nat)
    ensures k < 5 && k != 4
  {
    if l == True then 0
    else if r == True then 1
    else if l == False && r == False then 3
    else 2
  }

  /** Filters 3 and 4 together with "L OR R is True" are mutually exclusive
      and exhaustive. */
  lemma NullBothFalseEitherTrue(l: TruthValue, r: TruthValue)
    ensures IsNull(Or(l, r)) == True || And(Not(l), Not(r)) == True || Or(l, r) == True
    ensures !(IsNull(Or(l, r)) == True && And(Not(l), Not(r)) == True)
    ensures !(IsNull(Or(l, r)) == True && Or(l, r) == True)
    ensures !(And(Not(l), Not(r)) == True && Or(l, r) == True)
  {
  }

  /** Each truth value is kept by exactly one of p, NOT p and p IS NULL. */
  lemma {:induction false} LegacyCoverage(v: TruthValue)
    ensures |TrueAt(LegacyValues(v))| == 1
  {
    var vs := LegacyValues(v);
    var k := if v == True then 0 else if v == False then 1 else 2;
    assert vs[k] == True;
    assert TrueAt(vs) == {k};
  }

  /** The rows `e` keeps, as a multiset. */
  ghost function Kept<R(!new)>(rows: seq<R>, e: Expr, val: R -> nat -> TruthValue): multiset<R>
  {
    multiset(Where(rows, e, val))
  }

  /** A one-row table keeps its row exactly when the filter is True on it. */
  lemma KeptSingle<R(!new)>(x: R, e: Expr, val: R -> nat -> TruthValue)
    ensures Kept([x], e, val) == if Eval(e, val(x)) == True then multiset{x} else multiset{}
  {
    assert Where([x], e, val) == (if Eval(e, val(x)) == True then [x] else []) + Where([x][1..], e, val);
  }

  /** One row's share of the five filtered results: kept by the first four
      filters once more than by the fifth. */
  lemma {:induction false} RowBalance<R(!new)>(x: R, left: PredicateVariants, right: PredicateVariants,
                                              val: R -> nat -> TruthValue)
    requires Agrees(left, val(x)) && Agrees(right, val(x))
    ensures var fs := PartitionFilters(left, right);
      Kept([x], fs[0], val) + Kept([x], fs[1], val) + Kept([x], fs[2], val) + Kept([x], fs[3], val)
        == multiset{x} + Kept([x], fs[4], val)
  {
    var fs := PartitionFilters(left, right);
    PartitionFiltersEvaluate(left, right, val(x));
    var vs := FilterValues(Eval(left.condition, val(x)), Eval(right.condition, val(x)));
    var k := seq(5, i requires 0 <= i < 5 => if vs[i] == True then multiset{x} else multiset{});
    forall i | 0 <= i < 5
      ensures Kept([x], fs[i], val) == k[i]
    {
      KeptSingle(x, fs[i], val);
    }
    var l, r := vs[0], vs[1];
    if l == True && r == True {
      assert vs == [True, True, False, False, True];
    } else if l == True {
      assert vs[1] != True && vs[2] != True && vs[3] != True && vs[4] != True;
    } else if r == True {
      assert vs[0] != True && vs[2] != True && vs[3] != True && vs[4] != True;
    } else if l == False && r == False {
      assert vs == [False, False, False, True, False];
    } else {
      assert vs[0] != True && vs[1] != True && vs[2] == True && vs[3] != True && vs[4] != True;
    }
  }

  /** `Where` distributes over a table split after its first row. */
  lemma WhereCons<R(!new)>(x: R, rest: seq<R>, e: Expr, val: R -> nat -> TruthValue)
    ensures Where([x] + rest, e, val) == Where([x], e, val) + Where(rest, e, val)
  {
    assert ([x] + rest)[1..] == rest;
    assert [x][1..] == [];
  }

  /** Multiset bookkeeping for one induction step of `FiveWayReconstruction`. */
  lemma AddBalances<T>(a: seq<multiset<T>>, b: seq<multiset<T>>, x: multiset<T>, y: multiset<T>)
    requires |a| == 5 && |b| == 5
    requires a[0] + a[1] + a[2] + a[3] == x + a[4]
    requires b[0] + b[1] + b[2] + b[3] == y + b[4]
    ensures (a[0] + b[0]) + (a[1] + b[1]) + (a[2] + b[2]) + (a[3] + b[3]) == (x + y) + (a[4] + b[4])
  {
    var lhs := (a[0] + b[0]) + (a[1] + b[1]) + (a[2] + b[2]) + (a[3] + b[3]);
    var rhs := (x + y) + (a[4] + b[4]);
    forall z
      ensures lhs[z] == rhs[z]
    {
      assert (a[0] + a[1] + a[2] + a[3])[z] == (x + a[4])[z];
      assert (b[0] + b[1] + b[2] + b[3])[z] == (y + b[4])[z];
    }
    assert lhs == rhs;
  }

  /** Inclusion-exclusion over a whole table: the rows kept by the first four
      filters are the unfiltered rows plus the rows kept by `L AND R`. */
  lemma {:induction false} FiveWayReconstruction<R(!new)>(rows: seq<R>, left: PredicateVariants,
                                                         right: PredicateVariants, val: R -> nat -> TruthValue)
    requires forall x :: x in rows ==> Agrees(left, val(x)) && Agrees(right, val(x))
    ensures var fs := PartitionFilters(left, right);
      Kept(rows, fs[0], val) + Kept(rows, fs[1], val) + Kept(rows, fs[2], val) + Kept(rows, fs[3], val)
        == multiset(rows) + Kept(rows, fs[4], val)
  {
    var fs := PartitionFilters(left, right);
    if rows != [] {
      var x, rest := rows[0], rows[1..];
      assert rows == [x] + rest;
      FiveWayReconstruction(rest, left, right, val);
      RowBalance(x, left, right, val);
      var a := seq(5, i requires 0 <= i < 5 => Kept([x], fs[i], val));
      var b := seq(5, i requires 0 <= i < 5 => Kept(rest, fs[i], val));
      AddBalances(a, b, multiset{x}, multiset(rest));
      forall i | 0 <= i < 5
        ensures Kept(rows, fs[i], val) == a[i] + b[i]
      {
        WhereCons(x, rest, fs[i], val);
      }
    }
  }

  /** Subtracting the `L AND R` rows from the first four results reconstructs
      the unfiltered table exactly. */
  lemma InclusionExclusionExact<R(!new)>(rows: seq<R>, left: PredicateVariants,
                                          right: PredicateVariants, val: R -> nat -> TruthValue)
    requires forall x :: x in rows ==> Agrees(left, val(x)) && Agrees(right, val(x))
    ensures var fs := PartitionFilters(left, right);
      Kept(rows, fs[0], val) + Kept(rows, fs[1], val) + Kept(rows, fs[2], val) + Kept(rows, fs[3], val)
        - Kept(rows, fs[4], val) == multiset(rows)
  {
    FiveWayReconstruction(rows, left, right, val);
  }

  /** Adding a multiset twice leaves another unchanged only if it is empty. */
  lemma AddedTwiceUnchanged<T>(m: multiset<T>, e: multiset<T>)
    ensures m + e + e == m <==> e == multiset{}
  {
    if m + e + e == m {
      forall z
        ensures e[z] == 0
      {
        assert (m + e + e)[z] == m[z];
      }
      assert e == multiset{};
    }
  }

  /** The `L AND R` query returns nothing exactly when no row has both
      predicates True. */
  lemma BothTrueEmptyIff<R(!new)>(rows: seq<R>, left: PredicateVariants,
                                  right: PredicateVariants, val: R -> nat -> TruthValue)
    requires forall x :: x in rows ==> Agrees(left, val(x)) && Agrees(right, val(x))
    ensures Where(rows, PartitionFilters(left, right)[4], val) == []
      <==> (forall x :: x in rows ==> Eval(left.condition, val(x)) != True || Eval(right.condition, val(x)) != True)
  {
    var both := Where(rows, PartitionFilters(left, right)[4], val);
    if both != [] {
      var x := both[0];
      WhereMembership(rows, PartitionFilters(left, right)[4], val, x);
      PartitionFiltersEvaluate(left, right, val(x));
    } else {
      forall x | x in rows
        ensures Eval(left.condition, val(x)) != True || Eval(right.condition, val(x)) != True
      {
        WhereMembership(rows, PartitionFilters(left, right)[4], val, x);
        PartitionFiltersEvaluate(left, right, val(x));
      }
    }
  }

  /** Concatenating all five results reproduces the unfiltered table (as a
      multiset) if and only if no row has both L and R True. */
  lemma ConcatenationExactIffNoBothTrue<R(!new)>(rows: seq<R>, left: PredicateVariants,
                                                 right: PredicateVariants, val: R -> nat -> TruthValue)
    requires forall x :: x in rows ==> Agrees(left, val(x)) && Agrees(right, val(x))
    ensures var fs := PartitionFilters(left, right);
      multiset(Where(rows, fs[0], val) + Where(rows, fs[1], val) + Where(rows, fs[2], val)
               + Where(rows, fs[3], val) + Where(rows, fs[4], val)) == multiset(rows)
      <==> (forall x :: x in rows ==> Eval(left.condition, val(x)) != True || Eval(right.condition, val(x)) != True)
  {
    var fs := PartitionFilters(left, right);
    var w0, w1, w2, w3, both :=
      Where(rows, fs[0], val), Where(rows, fs[1], val), Where(rows, fs[2], val), Where(rows, fs[3], val), Where(rows, fs[4], val);
    FiveWayReconstruction(rows, left, right, val);
    assert multiset(w0 + w1 + w2 + w3 + both) == multiset(rows) + multiset(both) + multiset(both);
    AddedTwiceUnchanged(multiset(rows), multiset(both));
    assert |multiset(both)| == |both|;
    BothTrueEmptyIff(rows, left, right, val);
  }

  /** One row's share of the three single-predicate results: exactly one. */
  lemma RowLegacyBalance<R(!new)>(x: R, p: PredicateVariants, val: R -> nat -> TruthValue)
    requires Agrees(p, val(x))
    ensures var fs := LegacyFilters(p);
      Kept([x], fs[0], val) + Kept([x], fs[1], val) + Kept([x], fs[2], val) == multiset{x}
  {
    var fs := LegacyFilters(p);
    var v := Eval(p.condition, val(x));
    LegacyCoverage(v);
    var k := if v == True then 0 else if v == False then 1 else 2;
    assert TrueAt(LegacyValues(v)) == {k};
    forall i | 0 <= i < 3
      ensures Kept([x], fs[i], val) == if i == k then multiset{x} else multiset{}
    {
      assert Eval(fs[i], val(x)) == LegacyValues(v)[i];
      KeptSingle(x, fs[i], val);
    }
  }

  /** Multiset bookkeeping for one induction step of `ThreeWayReconstruction`. */
  lemma AddLegacyBalances<T>(a: seq<multiset<T>>, b: seq<multiset<T>>, x: multiset<T>, y: multiset<T>)
    requires |a| == 3 && |b| == 3
    requires a[0] + a[1] + a[2] == x
    requires b[0] + b[1] + b[2] == y
    ensures (a[0] + b[0]) + (a[1] + b[1]) + (a[2] + b[2]) == x + y
  {
    var lhs := (a[0] + b[0]) + (a[1] + b[1]) + (a[2] + b[2]);
    forall z
      ensures lhs[z] == (x + y)[z]
    {
      assert (a[0] + a[1] + a[2])[z] == x[z];
      assert (b[0] + b[1] + b[2])[z] == y[z];
    }
    assert lhs == x + y;
  }

  /** The single-predicate form partitions any table exactly: the three
      filtered results add up to the unfiltered rows. */
  lemma {:induction false} ThreeWayReconstruction<R(!new)>(rows: seq<R>, p: PredicateVariants,
                                                          val: R -> nat -> TruthValue)
    requires forall x :: x in rows ==> Agrees(p, val(x))
    ensures var fs := LegacyFilters(p);
      Kept(rows, fs[0], val) + Kept(rows, fs[1], val) + Kept(rows, fs[2], val) == multiset(rows)
  {
    var fs := LegacyFilters(p);
    if rows != [] {
      var x, rest := rows[0], rows[1..];
      assert rows == [x] + rest;
      ThreeWayReconstruction(rest, p, val);
      RowLegacyBalance(x, p, val);
      var a := seq(3, i requires 0 <= i < 3 => Kept([x], fs[i], val));
      var b := seq(3, i requires 0 <= i < 3 => Kept(rest, fs[i], val));
      AddLegacyBalances(a, b, multiset{x}, multiset(rest));
      forall i | 0 <= i < 3
        ensures Kept(rows, fs[i], val) == a[i] + b[i]
      {
        WhereCons(x, rest, fs[i], val);
      }
    }
  }
}
