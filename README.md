# Ternary-logic WHERE partitioning oracle and TiDB hint generation, in Dafny

This project models two parts of SQLancer, a tool that finds logic bugs in database engines.

**The TLP WHERE oracle** (`TLPWhereOracle`). One check cycle renders an unfiltered reference
query and runs it. It then builds two predicates L and R, each as a triple (p, NOT p, p IS NULL).
From them it renders five partition queries that differ from the reference only in their WHERE
clause (and in ORDER BY, which only the partition queries may carry). The five filters are
L, R, (L OR R) IS NULL, NOT L AND NOT R, and L AND R. The cycle merges the five results through an
external combiner and compares them with the reference rows. A reproducer is installed only when
the comparison passes. The reproducer can later be replayed to decide whether the bug still
triggers.

- `Kleene.dfy`: SQL's three truth values and NOT, AND, OR, IS NULL, following the truth tables of
  subclause 8.12 of ISO/IEC 9075:1992 (SQL-92).
- `Predicates.dfy`: WHERE conditions as expressions, their value on a row, predicate-variant
  triples, and what `WHERE e` returns.
- `Partition.dfy`: the five filters and the older three filters (p, NOT p, p IS NULL). For every
  pair of truth values it proves which filters keep a row. It then lifts this to whole tables as
  multiset identities. The three-filter form is an exact partition. The five-filter form keeps a
  row whose L and R are both True three times, and every other row once. So subtracting the
  L AND R rows once gives back the table. Plain concatenation of the five results gives back the
  table exactly when no row has both predicates True. How the real combiner merges rows is not
  visible here, so it stays a parameter.
- `Oracle.dfy`: the mutable SELECT, the reproducer shapes, the replay decision `BugStillTriggers`,
  and the `TLPWhereOracle` class whose `Check` edits one SELECT in place between renderings. It is
  proved against the cycle function `RunCycle`.

**The TiDB hint generator** (`TiDBHintGenerator`). It picks one hint kind. It writes that hint
into a fresh string builder, with a non-empty subset of the tables or indexes where the kind takes
arguments. It then installs the text as the SELECT's hint, or rejects the choice with
`IgnoreMeException`. `Hints.dfy` models it as a class whose builder is a `string` field, against
the specification function `HintFor`. A parser `Parse` is its partner: every generated hint over
plainly named tables reads back as exactly one hint, with the kind's name and the chosen arguments.

Randomness, the database and the renderer are parameters. Random draws form a `CycleChoices` or
`HintChoice` record. The helpers that run SQL and compare results are the function-valued fields
of `GlobalState`. `asString` is a function from a `Query` snapshot to text.

The reproducer is assigned only after `assumeResultSetsAreEqual` returns normally
(TLPWhereOracle.java:194-199). A cycle that ends in a discrepancy or an SQLException therefore
leaves no reproducer, and `getLastReproducer` returns null after it. A reproducer only ever comes
from a passing cycle, and replaying it repeats that cycle's own combiner call; the model proves
that it does not trigger against the same database (`CleanCycleDoesNotRetrigger`).

## Model

| member | source | states |
|---|---|---|
| Kleene.Not | src/sqlancer/common/oracle/TLPWhereOracle.java:181 | NOT p is True exactly when p is False, and False exactly when p is True |
| Kleene.And | src/sqlancer/common/oracle/TLPWhereOracle.java:181-185 | AND is True exactly when both sides are True, and False exactly when either side is False |
| Kleene.Or | src/sqlancer/common/oracle/TLPWhereOracle.java:177 | OR is True exactly when either side is True, and False exactly when both are False |
| Kleene.IsNull | src/sqlancer/common/oracle/TLPWhereOracle.java:177 | `v IS NULL` is never Unknown, and is True exactly when v is Unknown |
| Kleene.ConnectivesMatchRanks | src/sqlancer/common/oracle/TLPWhereOracle.java:177-185 | AND, OR and NOT agree with min, max and mirror on the ranks False < Unknown < True |
| Kleene.DeMorgan | src/sqlancer/common/oracle/TLPWhereOracle.java:177-185 | NOT is an involution, and De Morgan's laws hold in three-valued logic |
| Predicates.SyntacticVariantsAgree | src/sqlancer/common/oracle/TLPWhereOracle.java:165-169 | the triple (p, NOT p, p IS NULL) evaluates on every row to v, NOT v and v IS NULL |
| Predicates.WhereMembership | src/sqlancer/common/oracle/TLPWhereOracle.java:171-186 | a row is returned by `WHERE e` exactly when it is in the table and e is True on it |
| Predicates.Where | src/sqlancer/common/oracle/TLPWhereOracle.java:171-186 | a filtered query never returns more rows than the table has |
| Partition.PartitionFilters | src/sqlancer/common/oracle/TLPWhereOracle.java:171-185 | there are five filters, and the first two are L and R themselves |
| Partition.PartitionFiltersEvaluate | src/sqlancer/common/oracle/TLPWhereOracle.java:171-185 | on any row where both triples agree, the five filters evaluate to L, R, (L OR R) IS NULL, NOT L AND NOT R, L AND R |
| Partition.FiveFilterCoverage | src/sqlancer/common/oracle/TLPWhereOracle.java:171-185 | every (L, R) pair is kept by some filter; (True, True) by exactly filters 1, 2 and 5; every other pair by exactly one filter |
| Partition.NullBothFalseEitherTrue | src/sqlancer/common/oracle/TLPWhereOracle.java:177-182 | filters 3 and 4, with "L OR R is True", are mutually exclusive and exhaustive |
| Partition.LegacyFilters | src/sqlancer/common/oracle/TLPWhereOracle.java:144-152 | three filters, the first p itself; on a row where the triple agrees the second evaluates to NOT p and the third to p IS NULL |
| Partition.LegacyCoverage | src/sqlancer/common/oracle/TLPWhereOracle.java:142-152 | each truth value is kept by exactly one of p, NOT p and p IS NULL |
| Partition.RowBalance | src/sqlancer/common/oracle/TLPWhereOracle.java:171-185 | one row is kept by filters 1-4 once more than by filter 5 |
| Partition.FiveWayReconstruction | src/sqlancer/common/oracle/TLPWhereOracle.java:171-192 | over any table, the rows of filters 1-4 equal the table plus the rows of filter 5, as multisets |
| Partition.InclusionExclusionExact | src/sqlancer/common/oracle/TLPWhereOracle.java:171-192 | subtracting the L AND R rows from filters 1-4 gives back the unfiltered table exactly |
| Partition.BothTrueEmptyIff | src/sqlancer/common/oracle/TLPWhereOracle.java:184-186 | the L AND R query returns nothing exactly when no row has both predicates True |
| Partition.ConcatenationExactIffNoBothTrue | src/sqlancer/common/oracle/TLPWhereOracle.java:171-192 | concatenating all five results equals the table, as a multiset, exactly when no row has both predicates True |
| Partition.RowLegacyBalance | src/sqlancer/common/oracle/TLPWhereOracle.java:142-152 | one row is kept by exactly one of the three single-predicate filters |
| Partition.ThreeWayReconstruction | src/sqlancer/common/oracle/TLPWhereOracle.java:142-156 | over any table, the three single-predicate results add up to the unfiltered rows exactly |
| TLPWhere.Select.constructor | src/sqlancer/common/oracle/TLPWhereOracle.java:123 | a generated SELECT starts with no columns, joins, tables, WHERE or ORDER BY |
| TLPWhere.Select.SetFetchColumns | src/sqlancer/common/oracle/TLPWhereOracle.java:126 | replaces the projection and nothing else |
| TLPWhere.Select.SetJoinClauses | src/sqlancer/common/oracle/TLPWhereOracle.java:127 | replaces the joins and nothing else |
| TLPWhere.Select.SetFromList | src/sqlancer/common/oracle/TLPWhereOracle.java:128 | replaces the from-list and nothing else |
| TLPWhere.Select.SetWhereClause | src/sqlancer/common/oracle/TLPWhereOracle.java:129 | replaces the WHERE clause and nothing else |
| TLPWhere.Select.SetOrderByClauses | src/sqlancer/common/oracle/TLPWhereOracle.java:137-139 | replaces the ORDER BY list and nothing else |
| TLPWhere.ReferenceQuery | src/sqlancer/common/oracle/TLPWhereOracle.java:125-132 | the reference query has neither a WHERE clause nor an ORDER BY |
| TLPWhere.PartitionQueries | src/sqlancer/common/oracle/TLPWhereOracle.java:136-186 | five queries with the five filters in order, each with ORDER BY exactly when `orderBy` holds, and otherwise equal to the reference query |
| TLPWhere.Reproducer.Queries | src/sqlancer/common/oracle/TLPWhereOracle.java:32-48 | the single-predicate reproducer replays three texts, the two-predicate one five |
| TLPWhere.ReplayOutcome | src/sqlancer/common/oracle/TLPWhereOracle.java:91-103 | a replay is an SQL error exactly when the combiner raises SQLException, and passes exactly when the combiner returns rows the comparison accepts |
| TLPWhere.BugStillTriggers | src/sqlancer/common/oracle/TLPWhereOracle.java:90-104 | true exactly when an AssertionError is raised: by the replayed combiner, or by the comparison rejecting its rows; false on SQLException and on a passing comparison |
| TLPWhere.PartitionTexts | src/sqlancer/common/oracle/TLPWhereOracle.java:170-186 | five texts, the i-th rendered from the i-th partition query |
| TLPWhere.RunCycle | src/sqlancer/common/oracle/TLPWhereOracle.java:116-200 | the cycle is an SQL error exactly when the reference fetch, or the combiner after a successful fetch, raises SQLException; it passes exactly when both return rows and the comparison accepts them; an AssertionError is a mismatch; a reproducer exists exactly when the cycle passes, and holds the five texts, the reference text and rows, `orderBy` and the expected errors |
| TLPWhere.CleanCycleDoesNotRetrigger | src/sqlancer/common/oracle/TLPWhereOracle.java:191-199 | replay repeats the cycle's own combiner call (same texts, same `!orderBy`), so a fresh reproducer does not trigger on the same database |
| TLPWhere.TLPWhereOracle.constructor | src/sqlancer/common/oracle/TLPWhereOracle.java:107-114 | stores state, generator and expected errors; no reproducer and no query text yet |
| TLPWhere.TLPWhereOracle.New | src/sqlancer/common/oracle/TLPWhereOracle.java:107-114 | fails with IllegalArgumentException exactly when an argument is null; then no oracle is created |
| TLPWhere.TLPWhereOracle.Check | src/sqlancer/common/oracle/TLPWhereOracle.java:116-200 | points the generator at the chosen tables, records the reference text, and ends with RunCycle's outcome and reproducer |
| TLPWhere.TLPWhereOracle.CheckCloud | src/sqlancer/common/oracle/TLPWhereOracle.java:203-265 | the same contract as Check |
| TLPWhere.TLPWhereOracle.GetLastReproducer | src/sqlancer/common/oracle/TLPWhereOracle.java:267-270 | returns the reproducer the last cycle left |
| TLPWhere.TLPWhereOracle.GetLastQueryString | src/sqlancer/common/oracle/TLPWhereOracle.java:272-275 | returns the last reference text |
| TiDBHints.Name | src/sqlancer/tidb/gen/TiDBHintGenerator.java:19-34 | every hint name is non-empty and has no parenthesis or comma |
| TiDBHints.AllIndexes | src/sqlancer/tidb/gen/TiDBHintGenerator.java:112 | empty exactly when no table has an index; holds every index of every table, and nothing else |
| TiDBHints.Pick | src/sqlancer/tidb/gen/TiDBHintGenerator.java:116-130 | the chosen subset, element by element at the chosen positions |
| TiDBHints.HintFor | src/sqlancer/tidb/gen/TiDBHintGenerator.java:46-131 | join hints name exactly the chosen tables, in the chosen order; HASH_AGG, STREAM_AGG, AGG_TO_COP and NO_INDEX_MERGE take no arguments; USE_INDEX and IGNORE_INDEX fail exactly when no table has an index, and otherwise name exactly the chosen indexes, in order; USE_INDEX_MERGE always fails; USE_TOJA takes `true` or `false` as drawn |
| TiDBHints.TableNames | src/sqlancer/tidb/gen/TiDBHintGenerator.java:130 | one name per table, in table order |
| TiDBHints.JoinEnds | src/sqlancer/tidb/gen/TiDBHintGenerator.java:117-130 | `joining(", ")` gives the empty text for no parts, and otherwise starts with the first part and ends with the last |
| TiDBHints.RenderShape | src/sqlancer/tidb/gen/TiDBHintGenerator.java:109-126 | a hint is written as its name, `(`, the joined arguments and `)`, and nothing else |
| TiDBHints.SplitJoin | src/sqlancer/tidb/gen/TiDBHintGenerator.java:117-130 | splitting at ", " undoes `joining(", ")` for non-empty comma-free names |
| TiDBHints.ParseRender | src/sqlancer/tidb/gen/TiDBHintGenerator.java:109-126 | `NAME(args)` reads back as the same name and arguments |
| TiDBHints.GeneratedHintParses | src/sqlancer/tidb/gen/TiDBHintGenerator.java:41-131 | every hint generated over plainly named tables reads back as exactly that one hint |
| TiDBHints.TiDBSelect.SetHint | src/sqlancer/tidb/gen/TiDBHintGenerator.java:106 | the hint becomes exactly the given text |
| TiDBHints.HintGenerator.constructor | src/sqlancer/tidb/gen/TiDBHintGenerator.java:15-39 | a new generator has an empty builder |
| TiDBHints.HintGenerator.GenerateHints | src/sqlancer/tidb/gen/TiDBHintGenerator.java:41-44 | with a fresh builder, the hint becomes exactly the rendered hint, or the SELECT is unchanged on IgnoreMeException |
| TiDBHints.HintGenerator.Generate | src/sqlancer/tidb/gen/TiDBHintGenerator.java:46-107 | appends the chosen hint and installs the whole builder text; on IgnoreMeException the SELECT's hint is unchanged and the builder keeps only `NAME(` for an index hint, nothing for USE_INDEX_MERGE |
| TiDBHints.HintGenerator.IndexesHint | src/sqlancer/tidb/gen/TiDBHintGenerator.java:109-119 | fails exactly when no table has an index, after `NAME(` has been appended; otherwise appends `NAME(indexes)` |
| TiDBHints.HintGenerator.TablesHint | src/sqlancer/tidb/gen/TiDBHintGenerator.java:121-126 | appends `NAME(` + the chosen tables + `)` |
| TiDBHints.HintGenerator.AppendTables | src/sqlancer/tidb/gen/TiDBHintGenerator.java:128-131 | appends the chosen tables' names joined by ", " |

## Left out

- Rendering (`asString`) and AST construction are a parameter. The model states which `Query`
  snapshot each text is rendered from, not what the text looks like.
- `TestOracleUtils.initializeTernaryPredicateVariants` is not part of this model. A variant triple
  is any triple that `Agrees`, so it evaluates to v, NOT v and v IS NULL.
- `ComparatorHelper.getResultSetFirstColumnAsString`, `getCombinedResultSet` and
  `assumeResultSetsAreEqual` are not part of this model. They are the opaque functions of
  `GlobalState`. The model does not decide how the combiner merges the five results, and it
  leaves out the `combinedString` list the combiner fills for diagnostics.
- An IgnoreMeException or other runtime exception escaping the helpers is not modelled. The helpers
  return rows, an SQLException or an AssertionError, and nothing else.
- `Randomly`, schema introspection (`getRandomTableNonEmptyTables`) and the generator's
  `generate*` calls are the fields of `CycleChoices` and `HintChoice`. Each is constrained only as
  the source states (a non-empty table group, non-empty subsets).
- The generator's own state is reduced to the tables it was last pointed at.
- The single-predicate cycle body (TLPWhereOracle.java:141-162) is commented out in the source.
  Only its filters, its reconstruction lemma and its three-text reproducer shape are modelled.
- `ExpectedErrors` classification is left out. The set of patterns is only passed along.
- The unused table pick at TiDBHintGenerator.java:47 is left out. `Generate` only requires a
  non-empty table list to draw it from. The unreachable branch at lines 86-95 behind `if (true)`
  is left out too.
- Dialect polymorphism (the Java type parameters) is left out. Columns, joins, tables and
  ORDER BY terms are plain strings.
- Concurrency: none exists in this code.
