/** The TLP WHERE oracle's controller: one check cycle over a shared, mutable
    SELECT, the reproducer it leaves behind, and the replay decision.
    Query rendering, statement execution, row combination and result
    comparison are external collaborators and appear as function values. */
module TLPWhere {
  import opened Wrappers
  import opened Kleene
  import opened Predicates
  import opened Partition

  /** Error patterns that count as benign; shared read-only. */
  datatype ExpectedErrors = ExpectedErrors(patterns: set<string>)

  /** The first column of every row a query returned, or the SQLException
      or AssertionError it raised. */
  datatype Fetch = Rows(rows: seq<string>) | SqlException | AssertionFailure

  /** How a comparison of reference and combined rows ends: normally, with an
      AssertionError (a discrepancy), or with an SQLException. */
  datatype Outcome = Equal | Mismatch | SqlError

  /** The database-facing part of the global state, as the three helpers the
      oracle calls:
      - `firstColumn(text, errors)`: run one query, keep its first column;
      - `combined(texts, unordered, errors)`: run the partition queries and
        merge their rows (`unordered` is passed as "no ORDER BY attached");
      - `resultSetsEqual(reference, combined)`: whether the comparison
        returns normally rather than raising an AssertionError. */
  datatype GlobalState = GlobalState(
    firstColumn: (string, ExpectedErrors) -> Fetch,
    combined: (seq<string>, bool, ExpectedErrors) -> Fetch,
    resultSetsEqual: (seq<string>, seq<string>) -> bool)

  /** The query generator, as far as the cycle changes it: the tables it was
      last pointed at. */
  datatype Generator = Generator(tables: seq<string>)

  /** An immutable snapshot of a SELECT, which the renderer turns into text. */
  datatype Query = Query(
    fetchColumns: seq<string>,
    joinClauses: seq<string>,
    fromList: seq<string>,
    whereClause: Option<Expr>,
    orderByClauses: seq<string>)

  /** The SELECT the cycle edits in place between renderings. */
  class Select {
    var fetchColumns: seq<string>
    var joinClauses: seq<string>
    var fromList: seq<string>
    var whereClause: Option<Expr>
    var orderByClauses: seq<string>

    /** What `asString` sees right now. */
    function AsQuery(): Query
      reads this
    {
      Query(fetchColumns, joinClauses, fromList, whereClause, orderByClauses)
    }

    /** A freshly generated SELECT with nothing set. */
    constructor ()
      ensures AsQuery() == Query([], [], [], None, [])
    {
      fetchColumns, joinClauses, fromList, whereClause, orderByClauses := [], [], [], None, [];
    }

    method SetFetchColumns(columns: seq<string>)
      modifies this
      ensures AsQuery() == old(AsQuery()).(fetchColumns := columns)
    {
      fetchColumns := columns;
    }

    method SetJoinClauses(joins: seq<string>)
      modifies this
      ensures AsQuery() == old(AsQuery()).(joinClauses := joins)
    {
      joinClauses := joins;
    }

    method SetFromList(tables: seq<string>)
      modifies this
      ensures AsQuery() == old(AsQuery()).(fromList := tables)
    {
      fromList := tables;
    }

    method SetWhereClause(condition: Option<Expr>)
      modifies this
      ensures AsQuery() == old(AsQuery()).(whereClause := condition)
    {
      whereClause := condition;
    }

    method SetOrderByClauses(orderBys: seq<string>)
      modifies this
      ensures AsQuery() == old(AsQuery()).(orderByClauses := orderBys)
    {
      orderByClauses := orderBys;
    }
  }

  /** The random and generated inputs of one cycle, drawn from `Randomly`
      and the generator. */
  datatype CycleChoices = CycleChoices(
    targetTables: seq<string>,
    fetchColumns: seq<string>,
    joinClauses: seq<string>,
    tableRefs: seq<string>,
    orderBy: bool,
    orderBys: seq<string>,
    left: PredicateVariants,
    right: PredicateVariants)

  /** The unfiltered reference query, rendered before any ORDER BY exists. */
  function ReferenceQuery(c: CycleChoices): (q: Query)
    ensures q.whereClause == None && q.orderByClauses == []
  {
    Query(c.fetchColumns, c.joinClauses, c.tableRefs, None, [])
  }

  /** The five partition queries: the reference query with ORDER BY attached
      when `orderBy` holds, and with the five filters as WHERE clauses. */
  function PartitionQueries(c: CycleChoices): (qs: seq<Query>)
    ensures |qs| == 5
    ensures forall i :: 0 <= i < 5 ==> qs[i].whereClause == Some(PartitionFilters(c.left, c.right)[i])
    ensures forall i :: 0 <= i < 5 ==>
      qs[i].orderByClauses == (if c.orderBy then c.orderBys else [])
    ensures forall i :: 0 <= i < 5 ==>
      qs[i].(whereClause := None, orderByClauses := []) == ReferenceQuery(c)
  {
    var ordered := ReferenceQuery(c).(orderByClauses := if c.orderBy then c.orderBys else []);
    var fs := PartitionFilters(c.left, c.right);
    seq(5, i requires 0 <= i < 5 => ordered.(whereClause := Some(fs[i])))
  }

  /** The rendered partition texts, in query order. */
  function PartitionTexts(c: CycleChoices, asString: Query -> string): (ts: seq<string>)
    ensures |ts| == 5
    ensures forall i :: 0 <= i < 5 ==> ts[i] == asString(PartitionQueries(c)[i])
  {
    var qs := PartitionQueries(c);
    [asString(qs[0]), asString(qs[1]), asString(qs[2]), asString(qs[3]), asString(qs[4])]
  }

  /** A replayable snapshot of one cycle: the partition texts, the reference
      text and rows, the ORDER BY flag, and the oracle's expected errors. The
      single-predicate shape has three partition texts, the two-predicate
      shape five. */
  datatype Reproducer =
    | SinglePredicate(first: string, second: string, third: string,
                      original: string, resultSet: seq<string>, orderBy: bool, errors: ExpectedErrors)
    | TwoPredicate(first: string, second: string, third: string, fourth: string, fifth: string,
                   original: string, resultSet: seq<string>, orderBy: bool, errors: ExpectedErrors)
  {
    function Queries(): (ts: seq<string>)
      ensures |ts| == if SinglePredicate? then 3 else 5
    {
      if SinglePredicate? then [first, second, third] else [first, second, third, fourth, fifth]
    }
  }

  /** What happens when the stored texts are run again against `g`: the
      combiner gets the stored texts and `!orderBy`, and the comparison is
      against the stored reference rows. */
  function ReplayOutcome(rep: Reproducer, g: GlobalState): (o: Outcome)
    ensures var merged := g.combined(rep.Queries(), !rep.orderBy, rep.errors);
      && (o == SqlError <==> merged.SqlException?)
      && (o == Equal <==> merged.Rows? && g.resultSetsEqual(rep.resultSet, merged.rows))
  {
    match g.combined(rep.Queries(), !rep.orderBy, rep.errors)
    case SqlException => SqlError
    case AssertionFailure => Mismatch
    case Rows(second) => if g.resultSetsEqual(rep.resultSet, second) then Equal else Mismatch
  }

  /** The replay decision: only an AssertionError, from the combiner or the
      comparison, counts as the bug still triggering; an SQLException and a
      passing comparison both count as not triggering. */
  function BugStillTriggers(rep: Reproducer, g: GlobalState): (triggers: bool)
    ensures ReplayOutcome(rep, g) == Mismatch ==> triggers
    ensures ReplayOutcome(rep, g) == SqlError ==> !triggers
    ensures ReplayOutcome(rep, g) == Equal ==> !triggers
    ensures triggers <==>
      var merged := g.combined(rep.Queries(), !rep.orderBy, rep.errors);
      merged.AssertionFailure? || (merged.Rows? && !g.resultSetsEqual(rep.resultSet, merged.rows))
  {
    match ReplayOutcome(rep, g)
    case Mismatch => true
    case SqlError => false
    case Equal => false
  }

  /** How one cycle ends, and the reproducer it leaves behind. */
  datatype CycleResult = CycleResult(outcome: Outcome, reproducer: Option<Reproducer>)

  /** One cycle as a function of its inputs: fetch the reference rows, combine
      the five partition results with `!orderBy`, compare. An SQLException
      or AssertionError from a helper aborts the cycle. */
  function RunCycle(state: GlobalState, errors: ExpectedErrors, c: CycleChoices,
                    asString: Query -> string): (res: CycleResult)
    ensures res.reproducer.Some? <==> res.outcome == Equal
    ensures var first := state.firstColumn(asString(ReferenceQuery(c)), errors);
      var second := state.combined(PartitionTexts(c, asString), !c.orderBy, errors);
      && (res.outcome == SqlError <==> first.SqlException? || (first.Rows? && second.SqlException?))
      && (res.outcome == Equal <==>
            first.Rows? && second.Rows? && state.resultSetsEqual(first.rows, second.rows))
    ensures res.reproducer.Some? ==>
      var rep := res.reproducer.value;
      && rep.TwoPredicate?
      && rep.Queries() == PartitionTexts(c, asString)
      && rep.original == asString(ReferenceQuery(c))
      && rep.resultSet == state.firstColumn(asString(ReferenceQuery(c)), errors).rows
      && rep.orderBy == c.orderBy
      && rep.errors == errors
  {
    var original := asString(ReferenceQuery(c));
    match state.firstColumn(original, errors)
    case SqlException => CycleResult(SqlError, None)
    case AssertionFailure => CycleResult(Mismatch, None)
    case Rows(first) =>
      var ts := PartitionTexts(c, asString);
      match state.combined(ts, !c.orderBy, errors)
      case SqlException => CycleResult(SqlError, None)
      case AssertionFailure => CycleResult(Mismatch, None)
      case Rows(second) =>
        if state.resultSetsEqual(first, second) then
          CycleResult(Equal, Some(TwoPredicate(ts[0], ts[1], ts[2], ts[3], ts[4], original, first, c.orderBy, errors)))
        else
          CycleResult(Mismatch, None)
  }

  /** A reproducer left by a cycle replays, against the same database, the very
      combiner call the cycle made, so it does not trigger. */
  lemma CleanCycleDoesNotRetrigger(state: GlobalState, errors: ExpectedErrors, c: CycleChoices,
                                   asString: Query -> string)
    requires RunCycle(state, errors, c, asString).reproducer.Some?
    ensures var rep := RunCycle(state, errors, c, asString).reproducer.value;
      && state.combined(rep.Queries(), !rep.orderBy, rep.errors) == state.combined(PartitionTexts(c, asString), !c.orderBy, errors)
      && !BugStillTriggers(rep, state)
  {
  }

  /** Thrown when the oracle is built from a null argument. */
  datatype IllegalArgumentException = IllegalArgumentException(message: string)

  class TLPWhereOracle {
    const state: GlobalState
    var gen: Generator
    const errors: ExpectedErrors
    var reproducer: Option<Reproducer>
    var generatedQueryString: Option<string>

    /** An oracle that has not run a cycle yet. */
    constructor (state: GlobalState, gen: Generator, errors: ExpectedErrors)
      ensures this.state == state && this.gen == gen && this.errors == errors
      ensures reproducer == None && generatedQueryString == None
    {
      this.state := state;
      this.gen := gen;
      this.errors := errors;
      reproducer := None;
      generatedQueryString := None;
    }

    /** The Java constructor with its null check: any missing argument is an
        IllegalArgumentException and no oracle is created. */
    static method New(state: Option<GlobalState>, gen: Option<Generator>, expectedErrors: Option<ExpectedErrors>)
      returns (r: Result<TLPWhereOracle, IllegalArgumentException>)
      ensures r.Failure? <==> state.None? || gen.None? || expectedErrors.None?
      ensures r.Failure? ==> r.error == IllegalArgumentException("Null variables used to initialize test oracle.")
      ensures r.Success? ==>
        && fresh(r.value)
        && r.value.state == state.value && r.value.gen == gen.value && r.value.errors == expectedErrors.value
        && r.value.reproducer == None && r.value.generatedQueryString == None
    {
      if state.None? || gen.None? || expectedErrors.None? {
        return Failure(IllegalArgumentException("Null variables used to initialize test oracle."));
      }
      var oracle := new TLPWhereOracle(state.value, gen.value, expectedErrors.value);
      return Success(oracle);
    }

    /** One two-predicate check cycle. The reproducer is cleared first and
        installed only when the comparison returns normally; the reference
        text is recorded before ORDER BY is attached. */
    method Check(c: CycleChoices, asString: Query -> string) returns (outcome: Outcome)
      requires |c.targetTables| > 0
      modifies this
      ensures gen == Generator(c.targetTables)
      ensures generatedQueryString == Some(asString(ReferenceQuery(c)))
      ensures outcome == RunCycle(state, errors, c, asString).outcome
      ensures reproducer == RunCycle(state, errors, c, asString).reproducer
    {
      reproducer := None;
      gen := Generator(c.targetTables);

      var select := new Select();
      select.SetFetchColumns(c.fetchColumns);
      select.SetJoinClauses(c.joinClauses);
      select.SetFromList(c.tableRefs);
      select.SetWhereClause(None);

      var originalQueryString := asString(select.AsQuery());
      generatedQueryString := Some(originalQueryString);
      var firstResultSet := state.firstColumn(originalQueryString, errors);
      if firstResultSet.SqlException? {
        return SqlError;
      } else if firstResultSet.AssertionFailure? {
        return Mismatch;
      }

      if c.orderBy {
        select.SetOrderByClauses(c.orderBys);
      }

      var left, right := c.left, c.right;
      select.SetWhereClause(Some(left.condition));
      var first := asString(select.AsQuery());
      select.SetWhereClause(Some(right.condition));
      var second := asString(select.AsQuery());
      select.SetWhereClause(Some(NullTest(Disjunction(left.condition, right.condition))));
      var third := asString(select.AsQuery());
      select.SetWhereClause(Some(Conjunction(left.negatedCondition, right.negatedCondition)));
      var fourth := asString(select.AsQuery());
      select.SetWhereClause(Some(Conjunction(left.condition, right.condition)));
      var fifth := asString(select.AsQuery());
      assert [first, second, third, fourth, fifth] == PartitionTexts(c, asString);

      var secondResultSet := state.combined([first, second, third, fourth, fifth], !c.orderBy, errors);
      if secondResultSet.SqlException? {
        return SqlError;
      } else if secondResultSet.AssertionFailure? {
        return Mismatch;
      }
      if !state.resultSetsEqual(firstResultSet.rows, secondResultSet.rows) {
        return Mismatch;
      }
      reproducer := Some(TwoPredicate(first, second, third, fourth, fifth,
                                      originalQueryString, firstResultSet.rows, c.orderBy, errors));
      return Equal;
    }

    /** The second entry point, whose body is the same cycle as `Check`. */
    method CheckCloud(c: CycleChoices, asString: Query -> string) returns (outcome: Outcome)
      requires |c.targetTables| > 0
      modifies this
      ensures gen == Generator(c.targetTables)
      ensures generatedQueryString == Some(asString(ReferenceQuery(c)))
      ensures outcome == RunCycle(state, errors, c, asString).outcome
      ensures reproducer == RunCycle(state, errors, c, asString).reproducer
    {
      outcome := Check(c, asString);
    }

    /** The reproducer of the last cycle: None unless it ended with Equal. */
    method GetLastReproducer() returns (r: Option<Reproducer>)
      ensures r == reproducer
    {
      r := reproducer;
    }

    /** The last reference text rendered: no WHERE clause and no ORDER BY. */
    method GetLastQueryString() returns (s: Option<string>)
      ensures s == generatedQueryString
    {
      s := generatedQueryString;
    }
  }
}
