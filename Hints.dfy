/** TiDB optimizer-hint generation: one randomly chosen hint kind, with a
    non-empty choice of tables or indexes where the kind takes arguments, is
    written into a fresh string builder and installed as the SELECT's hint,
    or the choice is rejected with an IgnoreMeException. */
module TiDBHints {
  import opened Wrappers

  /** The hint kinds, in declaration order. */
  datatype IndexHint =
    | MergeJoin | InlJoin | InlHashJoin | InlMergeJoin | HashJoin
    | HashAgg | StreamAgg | UseIndex | IgnoreIndex | AggToCop
    | UseIndexMerge | NoIndexMerge | UseToja

  /** The SQL spelling of a hint kind. */
  function Name(h: IndexHint): (s: string)
    ensures |s| > 0 && '(' !in s && ',' !in s
  {
    match h
    case MergeJoin => "MERGE_JOIN"
    case InlJoin => "INL_JOIN"
    case InlHashJoin => "INL_HASH_JOIN"
    case InlMergeJoin => "INL_MERGE_JOIN"
    case HashJoin => "HASH_JOIN"
    case HashAgg => "HASH_AGG"
    case StreamAgg => "STREAM_AGG"
    case UseIndex => "USE_INDEX"
    case IgnoreIndex => "IGNORE_INDEX"
    case AggToCop => "AGG_TO_COP"
    case UseIndexMerge => "USE_INDEX_MERGE"
    case NoIndexMerge => "NO_INDEX_MERGE"
    case UseToja => "USE_TOJA"
  }

  /** Join hints take a list of tables. */
  predicate IsTablesHint(h: IndexHint)
  {
    h in {MergeJoin, InlJoin, InlHashJoin, InlMergeJoin, HashJoin}
  }

  /** USE_INDEX and IGNORE_INDEX take a list of indexes. */
  predicate IsIndexesHint(h: IndexHint)
  {
    h == UseIndex || h == IgnoreIndex
  }

  /** Hints written with an empty argument list. */
  predicate IsNoArgumentHint(h: IndexHint)
  {
    h in {HashAgg, StreamAgg, AggToCop, NoIndexMerge}
  }

  /** A table of the schema: its name and the names of its indexes. */
  datatype Table = Table(name: string, indexes: seq<string>)

  /** Thrown to abandon the current statement without reporting anything. */
  datatype IgnoreMeException = IgnoreMeException

  function TableNames(tables: seq<Table>): (names: seq<string>)
    ensures |names| == |tables|
    ensures forall i :: 0 <= i < |tables| ==> names[i] == tables[i].name
  {
    if tables == [] then [] else [tables[0].name] + TableNames(tables[1..])
  }

  /** Every index of every table, table by table. */
  function AllIndexes(tables: seq<Table>): (all: seq<string>)
    ensures all == [] <==> forall t :: t in tables ==> t.indexes == []
    ensures forall t, x :: t in tables && x in t.indexes ==> x in all
    ensures forall x :: x in all ==> exists t :: t in tables && x in t.indexes
  {
    if tables == [] then [] else tables[0].indexes + AllIndexes(tables[1..])
  }

  /** A non-empty subset of `n` elements, as distinct positions in some order. */
  predicate NonEmptySubset(picks: seq<nat>, n: nat)
  {
    && |picks| > 0
    && (forall k :: 0 <= k < |picks| ==> picks[k] < n)
    && (forall k, m :: 0 <= k < m < |picks| ==> picks[k] != picks[m])
  }

  function Pick<T>(xs: seq<T>, picks: seq<nat>): (ys: seq<T>)
    requires forall k :: 0 <= k < |picks| ==> picks[k] < |xs|
    ensures |ys| == |picks|
    ensures forall k :: 0 <= k < |picks| ==> ys[k] == xs[picks[k]]
  {
    if picks == [] then [] else [xs[picks[0]]] + Pick(xs, picks[1..])
  }

  /** Java's `Collectors.joining(", ")`: starts with the first part, ends
      with the last, and is empty for an empty list. */
  function Join(parts: seq<string>): string
  {
    if |parts| == 0 then ""
    else if |parts| == 1 then parts[0]
    else parts[0] + ", " + Join(parts[1..])
  }

  /** The joined text is empty for no parts, starts with the first part and
      ends with the last. */
  lemma {:induction false} JoinEnds(parts: seq<string>)
    ensures parts == [] ==> Join(parts) == ""
    ensures |parts| > 0 ==> parts[0] <= Join(parts)
    ensures |parts| > 0 ==>
      var j, last := Join(parts), parts[|parts| - 1];
      |last| <= |j| && j[|j| - |last|..] == last
  {
    if |parts| > 1 {
      JoinEnds(parts[1..]);
      var rest := Join(parts[1..]);
      var last := parts[|parts| - 1];
      assert parts[1..][|parts[1..]| - 1] == last;
      var r := parts[0] + ", " + rest;
      assert r[|r| - |last|..] == rest[|rest| - |last|..];
    }
  }

  /** The random choices one `generate` call makes. */
  datatype HintChoice = HintChoice(kind: IndexHint, tablePicks: seq<nat>, indexPicks: seq<nat>, toja: bool)

  /** The subsets drawn are non-empty subsets of what they are drawn from. */
  predicate ValidChoice(tables: seq<Table>, ch: HintChoice)
  {
    && (IsTablesHint(ch.kind) ==> NonEmptySubset(ch.tablePicks, |tables|))
    && (IsIndexesHint(ch.kind) && AllIndexes(tables) != [] ==>
          NonEmptySubset(ch.indexPicks, |AllIndexes(tables)|))
  }

  /** A hint as a name and an argument list. */
  datatype HintCall = HintCall(name: string, args: seq<string>)

  /** `NAME(arg, arg, ...)`: the name, then the joined arguments in
      parentheses. */
  function Render(h: HintCall): string
  {
    h.name + "(" + Join(h.args) + ")"
  }

  /** A rendered hint is its name, an opening parenthesis, the joined
      arguments and a closing parenthesis, in that order. */
  lemma RenderShape(h: HintCall)
    ensures var r := Render(h);
      && |r| == |h.name| + |Join(h.args)| + 2
      && r[..|h.name|] == h.name && r[|h.name|] == '(' && r[|r| - 1] == ')'
      && r[|h.name| + 1..|r| - 1] == Join(h.args)
  {
    var r := Render(h);
    assert r == h.name + ("(" + Join(h.args) + ")");
  }

  /** The hint a choice stands for, or the exception it raises. */
  function HintFor(tables: seq<Table>, ch: HintChoice): (r: Result<HintCall, IgnoreMeException>)
    requires ValidChoice(tables, ch)
    ensures r.Success? ==> r.value.name == Name(ch.kind)
    ensures IsTablesHint(ch.kind) ==>
      && r.Success? && |r.value.args| == |ch.tablePicks| > 0
      && (forall k :: 0 <= k < |ch.tablePicks| ==> r.value.args[k] == tables[ch.tablePicks[k]].name)
      && (forall a :: a in r.value.args ==> a in TableNames(tables))
    ensures IsNoArgumentHint(ch.kind) ==> r.Success? && r.value.args == []
    ensures IsIndexesHint(ch.kind) ==>
      && (r.Failure? <==> forall t :: t in tables ==> t.indexes == [])
      && (r.Success? ==>
            && |r.value.args| == |ch.indexPicks| > 0
            && (forall k :: 0 <= k < |ch.indexPicks| ==> r.value.args[k] == AllIndexes(tables)[ch.indexPicks[k]])
            && (forall a :: a in r.value.args ==> a in AllIndexes(tables)))
    ensures ch.kind == UseIndexMerge ==> r.Failure?
    ensures ch.kind == UseToja ==> r.Success? && r.value.args == [if ch.toja then "true" else "false"]
  {
    match ch.kind
    case MergeJoin | InlJoin | InlHashJoin | InlMergeJoin | HashJoin =>
      Success(HintCall(Name(ch.kind), Pick(TableNames(tables), ch.tablePicks)))
    case HashAgg | StreamAgg | AggToCop | NoIndexMerge =>
      Success(HintCall(Name(ch.kind), []))
    case UseIndex | IgnoreIndex =>
      var indexes := AllIndexes(tables);
      if indexes == [] then Failure(IgnoreMeException)
      else Success(HintCall(Name(ch.kind), Pick(indexes, ch.indexPicks)))
    case UseIndexMerge =>
      Failure(IgnoreMeException)
    case UseToja =>
      Success(HintCall(Name(ch.kind), [if ch.toja then "true" else "false"]))
  }

  // ---------------------------------------------------------------------
  // Reading a hint back
  // ---------------------------------------------------------------------

  /** Splits an argument list at every ", ". */
  function SplitArgs(s: string): (parts: seq<string>)
    ensures |parts| >= 1
    decreases |s|
  {
    if |s| == 0 then [""]
    else if |s| >= 2 && s[0] == ',' && s[1] == ' ' then [""] + SplitArgs(s[2..])
    else
      var rest := SplitArgs(s[1..]);
      [[s[0]] + rest[0]] + rest[1..]
  }

  function IndexOf(s: string, c: char): (r: Option<nat>)
    ensures r.None? <==> c !in s
    ensures r.Some? ==> r.value < |s| && s[r.value] == c && c !in s[..r.value]
  {
    if |s| == 0 then None
    else if s[0] == c then Some(0)
    else match IndexOf(s[1..], c)
      case None => None
      case Some(i) =>
        assert s[..i + 1] == [s[0]] + s[1..][..i];
        Some(i + 1)
  }

  /** Reads `NAME(arg, arg, ...)` back into a name and its arguments. */
  function Parse(text: string): Option<HintCall>
  {
    if |text| == 0 || text[|text| - 1] != ')' then None
    else match IndexOf(text, '(')
      case None => None
      case Some(i) =>
        if i + 1 > |text| - 1 then None
        else
          var inner := text[i + 1..|text| - 1];
          Some(HintCall(text[..i], if inner == "" then [] else SplitArgs(inner)))
  }

  /** Names that survive the round trip: non-empty and free of commas. */
  predicate PlainName(s: string)
  {
    s != "" && ',' !in s
  }

  /** Tables and indexes with plain names. */
  predicate WellNamed(tables: seq<Table>)
  {
    forall t :: t in tables ==> PlainName(t.name) && forall x :: x in t.indexes ==> PlainName(x)
  }

  lemma {:induction false} SplitPlain(x: string)
    requires ',' !in x
    ensures SplitArgs(x) == [x]
  {
    if |x| > 0 {
      assert x[0] in x;
      assert forall k :: 0 <= k < |x[1..]| ==> x[1..][k] in x;
      SplitPlain(x[1..]);
      assert [x[0]] + x[1..] == x;
    }
  }

  lemma {:induction false} SplitAfterPlain(x: string, rest: string)
    requires ',' !in x
    ensures SplitArgs(x + ", " + rest) == [x] + SplitArgs(rest)
  {
    if |x| == 0 {
      assert x + ", " + rest == [','] + [' '] + rest;
    } else {
      assert x[0] in x;
      assert forall k :: 0 <= k < |x[1..]| ==> x[1..][k] in x;
      SplitAfterPlain(x[1..], rest);
      assert (x + ", " + rest)[0] == x[0];
      assert (x + ", " + rest)[1..] == x[1..] + ", " + rest;
      assert [x[0]] + x[1..] == x;
    }
  }

  /** Splitting undoes joining, for plain names. */
  lemma {:induction false} SplitJoin(parts: seq<string>)
    requires |parts| > 0
    requires forall p :: p in parts ==> ',' !in p
    ensures SplitArgs(Join(parts)) == parts
  {
    if |parts| == 1 {
      SplitPlain(parts[0]);
    } else {
      SplitJoin(parts[1..]);
      SplitAfterPlain(parts[0], Join(parts[1..]));
    }
  }

  /** Parsing undoes rendering for a name without '(' and plain arguments. */
  lemma ParseRender(h: HintCall)
    requires '(' !in h.name
    requires forall a :: a in h.args ==> PlainName(a)
    ensures Parse(Render(h)) == Some(h)
  {
    var text := Render(h);
    var inner := Join(h.args);
    assert text == h.name + "(" + inner + ")";
    assert text[|h.name|] == '(';
    assert text[..|h.name|] == h.name;
    assert IndexOf(text, '(') == Some(|h.name|);
    assert text[|h.name| + 1..|text| - 1] == inner;
    if h.args == [] {
      assert inner == "";
    } else {
      assert h.args[0] in h.args;
      SplitJoin(h.args);
    }
  }

  /** Whatever hint a valid choice produces over well-named tables reads back
      as exactly that one hint: the kind's name and the chosen arguments. */
  lemma GeneratedHintParses(tables: seq<Table>, ch: HintChoice)
    requires ValidChoice(tables, ch) && WellNamed(tables)
    requires HintFor(tables, ch).Success?
    ensures Parse(Render(HintFor(tables, ch).value)) == Some(HintFor(tables, ch).value)
  {
    var h := HintFor(tables, ch).value;
    forall a | a in h.args
      ensures PlainName(a)
    {
      if a in TableNames(tables) {
        var i :| 0 <= i < |tables| && TableNames(tables)[i] == a;
        assert tables[i] in tables;
      } else if a in AllIndexes(tables) {
        var t :| t in tables && a in t.indexes;
      }
    }
    ParseRender(h);
  }

  // ---------------------------------------------------------------------
  // The generator object
  // ---------------------------------------------------------------------

  /** The part of a TiDB SELECT the generator writes. */
  class TiDBSelect {
    var hint: Option<string>

    constructor ()
      ensures hint == None
    {
      hint := None;
    }

    method SetHint(text: string)
      modifies this
      ensures hint == Some(text)
    {
      hint := Some(text);
    }
  }

  class HintGenerator {
    const select: TiDBSelect
    const tables: seq<Table>
    var sb: string

    constructor (select: TiDBSelect, tables: seq<Table>)
      ensures this.select == select && this.tables == tables && sb == ""
    {
      this.select := select;
      this.tables := tables;
      sb := "";
    }

    /** A fresh generator per call, so the hint holds exactly one hint. */
    static method GenerateHints(select: TiDBSelect, tables: seq<Table>, ch: HintChoice) returns (ignored: bool)
      requires |tables| > 0 && ValidChoice(tables, ch)
      modifies select
      ensures ignored <==> HintFor(tables, ch).Failure?
      ensures !ignored ==> select.hint == Some(Render(HintFor(tables, ch).value))
      ensures ignored ==> select.hint == old(select.hint)
    {
      var g := new HintGenerator(select, tables);
      ignored := g.Generate(ch);
      if !ignored {
        assert g.sb == Render(HintFor(tables, ch).value);
      }
    }

    /** Appends the chosen hint and installs the builder's text as the hint;
        on IgnoreMeException the SELECT is left alone. */
    method Generate(ch: HintChoice) returns (ignored: bool)
      requires |tables| > 0 && ValidChoice(tables, ch)
      modifies this`sb, select
      ensures ignored <==> HintFor(tables, ch).Failure?
      ensures !ignored ==> sb == old(sb) + Render(HintFor(tables, ch).value) && select.hint == Some(sb)
      ensures ignored ==> select.hint == old(select.hint)
      ensures ignored ==> sb == old(sb) + (if IsIndexesHint(ch.kind) then Name(ch.kind) + "(" else "")
    {
      ignored := false;
      match ch.kind {
        case MergeJoin | InlJoin | InlHashJoin | InlMergeJoin | HashJoin =>
          TablesHint(Name(ch.kind), ch.tablePicks);
        case HashAgg | StreamAgg | AggToCop | NoIndexMerge =>
          sb := sb + Name(ch.kind) + "()";
        case UseIndex | IgnoreIndex =>
          ignored := IndexesHint(Name(ch.kind), ch.indexPicks);
        case UseIndexMerge =>
          ignored := true;
        case UseToja =>
          sb := sb + "USE_TOJA(";
          sb := sb + (if ch.toja then "true" else "false");
          sb := sb + ")";
      }
      if !ignored {
        select.SetHint(sb);
      }
    }

    /** `NAME(` + the index list + `)`, or IgnoreMeException when no table
        has an index (after `NAME(` has been appended). */
    method IndexesHint(name: string, picks: seq<nat>) returns (ignored: bool)
      requires AllIndexes(tables) != [] ==> NonEmptySubset(picks, |AllIndexes(tables)|)
      modifies this`sb
      ensures ignored <==> AllIndexes(tables) == []
      ensures ignored ==> sb == old(sb) + name + "("
      ensures !ignored ==> sb == old(sb) + Render(HintCall(name, Pick(AllIndexes(tables), picks)))
    {
      sb := sb + name;
      sb := sb + "(";
      var indexes := AllIndexes(tables);
      if indexes == [] {
        return true;
      }
      sb := sb + Join(Pick(indexes, picks));
      sb := sb + ")";
      return false;
    }

    /** `NAME(` + the table list + `)`. */
    method TablesHint(name: string, picks: seq<nat>)
      requires NonEmptySubset(picks, |tables|)
      modifies this`sb
      ensures sb == old(sb) + Render(HintCall(name, Pick(TableNames(tables), picks)))
    {
      ghost var joined := Join(Pick(TableNames(tables), picks));
      sb := sb + name;
      sb := sb + "(";
      AppendTables(picks);
      sb := sb + ")";
      assert sb == old(sb) + (name + "(" + joined + ")");
    }

    /** The chosen tables' names, joined by ", ". */
    method AppendTables(picks: seq<nat>)
      requires NonEmptySubset(picks, |tables|)
      modifies this`sb
      ensures sb == old(sb) + Join(Pick(TableNames(tables), picks))
    {
      sb := sb + Join(Pick(TableNames(tables), picks));
    }
  }
}
