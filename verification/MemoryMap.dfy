/** The memory rows as a map from (agent, source id) to a memory and its user. */
module MemoryMap {
  import opened Prelude
  import opened Sorting
  import opened MemoryStore

  datatype Entry = Entry(user: Option<string>, content: Content)

  function Stored(rows: seq<Row>, agent: int, id: string): Option<Entry> {
    if rows == [] then None
    else
      var last := rows[|rows| - 1];
      if Matches(last, agent, id) then Some(Entry(last.user, last.content))
      else Stored(rows[..|rows| - 1], agent, id)
  }

  function Count(rows: seq<Row>, agent: int, id: string): nat {
    if rows == [] then 0
    else Count(rows[..|rows| - 1], agent, id) + if Matches(rows[|rows| - 1], agent, id) then 1 else 0
  }

  /** At most one row for an agent and a source id. */
  ghost predicate Unique(rows: seq<Row>) {
    forall agent: int, id: string :: Count(rows, agent, id) <= 1
  }

  // ---------------------------------------------------------------------------------------------
  // One statement
  // ---------------------------------------------------------------------------------------------

  lemma {:induction false} CountMatches(rows: seq<Row>, agent: int, id: string)
    ensures |Filter(rows, Matching(agent, id))| == Count(rows, agent, id)
    ensures Stored(rows, agent, id).Some? <==> Count(rows, agent, id) > 0
    decreases |rows|
  {
    if rows != [] {
      CountMatches(rows[..|rows| - 1], agent, id);
    }
  }

  lemma {:induction false} AfterRewrite(rows: seq<Row>, agent: int, id: string, dict: Dict, now: int, a: int, i: string)
    ensures var rewritten := Map(rows, Rewrite(agent, id, dict, now));
      && Count(rewritten, a, i) == Count(rows, a, i)
      && Stored(rewritten, a, i) == (if a == agent && i == id && Stored(rows, a, i).Some?
                                     then Some(Entry(Stored(rows, a, i).value.user, Object(dict)))
                                     else Stored(rows, a, i))
    decreases |rows|
  {
    if rows != [] {
      var n := |rows| - 1;
      AfterRewrite(rows[..n], agent, id, dict, now, a, i);
      var rewritten := Map(rows, Rewrite(agent, id, dict, now));
      assert rewritten[..|rewritten| - 1] == Map(rows[..n], Rewrite(agent, id, dict, now));
    }
  }

  lemma Snoc(rows: seq<Row>, row: Row, a: int, i: string)
    ensures Count(rows + [row], a, i) == Count(rows, a, i) + (if Matches(row, a, i) then 1 else 0)
    ensures Stored(rows + [row], a, i)
      == if Matches(row, a, i) then Some(Entry(row.user, row.content)) else Stored(rows, a, i)
  {
    assert (rows + [row])[..|rows|] == rows;
  }

  /** One more row behind a filter that keeps the rows of a key, or drops them. */
  lemma FilterOne(rows: seq<Row>, filtered: seq<Row>, row: Row, keep: bool, a: int, i: string, kept: bool)
    requires Matches(row, a, i) ==> keep == kept
    requires Count(filtered, a, i) == (if kept then Count(rows, a, i) else 0)
    requires Stored(filtered, a, i) == (if kept then Stored(rows, a, i) else None)
    ensures var more := if keep then filtered + [row] else filtered;
      && Count(more, a, i) == (if kept then Count(rows + [row], a, i) else 0)
      && Stored(more, a, i) == (if kept then Stored(rows + [row], a, i) else None)
  {
    Snoc(rows, row, a, i);
    Snoc(filtered, row, a, i);
  }

  /** A filter that keeps all the rows of a key, or none of them. */
  lemma {:induction false} AfterFilter(rows: seq<Row>, keep: Row -> bool, a: int, i: string, kept: bool)
    requires forall row: Row | Matches(row, a, i) :: keep(row) == kept
    ensures Count(Filter(rows, keep), a, i) == (if kept then Count(rows, a, i) else 0)
    ensures Stored(Filter(rows, keep), a, i) == (if kept then Stored(rows, a, i) else None)
    decreases |rows|
  {
    if rows != [] {
      var before, row := rows[..|rows| - 1], rows[|rows| - 1];
      AfterFilter(before, keep, a, i, kept);
      FilterOne(before, Filter(before, keep), row, keep(row), a, i, kept);
      assert rows == before + [row];
      assert Filter(rows, keep) == if keep(row) then Filter(before, keep) + [row] else Filter(before, keep);
    }
  }

  lemma AfterUpsert(rows: seq<Row>, agent: int, id: string, user: Option<string>, dict: Dict, now: int, a: int,
      i: string)
    requires Count(rows, a, i) <= 1
    ensures var upserted, before := Upserted(rows, agent, id, user, dict, now), Stored(rows, a, i);
      && Count(upserted, a, i) <= 1
      && Stored(upserted, a, i) == (if a == agent && i == id
                                    then Some(Entry(if before.Some? then before.value.user else user, Object(dict)))
                                    else before)
  {
    CountMatches(rows, agent, id);
    CountMatches(rows, a, i);
    if Filter(rows, Matching(agent, id)) != [] {
      AfterRewrite(rows, agent, id, dict, now, a, i);
    } else {
      var row := Row(agent, user, Object(dict), Some(id), now, now);
      assert (rows + [row])[..|rows|] == rows;
    }
  }

  lemma {:induction false} RewriteKeepsOthers(rows: seq<Row>, agent: int, id: string, dict: Dict, now: int)
    ensures Filter(Map(rows, Rewrite(agent, id, dict, now)), OutOfReach(agent)) == Filter(rows, OutOfReach(agent))
    decreases |rows|
  {
    if rows != [] {
      var n := |rows| - 1;
      RewriteKeepsOthers(rows[..n], agent, id, dict, now);
      var rewritten := Map(rows, Rewrite(agent, id, dict, now));
      assert rewritten[..|rewritten| - 1] == Map(rows[..n], Rewrite(agent, id, dict, now));
    }
  }

  lemma {:induction false} FilterTwice(rows: seq<Row>, keep: Row -> bool, part: Row -> bool)
    requires forall row: Row | part(row) :: keep(row)
    ensures Filter(Filter(rows, keep), part) == Filter(rows, part)
    decreases |rows|
  {
    if rows != [] {
      var n := |rows| - 1;
      FilterTwice(rows[..n], keep, part);
      if keep(rows[n]) {
        FilterSnoc(Filter(rows[..n], keep), rows[n], part);
      } else {
        assert Filter(rows, keep) == Filter(rows[..n], keep);
      }
    }
  }

  // ---------------------------------------------------------------------------------------------
  // Every run
  // ---------------------------------------------------------------------------------------------

  datatype Statement =
    | Upsert(agent: int, id: string, user: Option<string>, dict: Dict, now: int)
    | Delete(agent: int, id: string)
    | Clear(agent: int)

  function Apply(rows: seq<Row>, s: Statement): seq<Row> {
    match s
    case Upsert(agent, id, user, dict, now) => Upserted(rows, agent, id, user, dict, now)
    case Delete(agent, id) => Filter(rows, NotMatching(agent, id))
    case Clear(agent) => Filter(rows, OutOfReach(agent))
  }

  /** What a statement does to one entry of the map. */
  function ApplyToEntry(entry: Option<Entry>, s: Statement, a: int, i: string): Option<Entry> {
    match s
    case Upsert(agent, id, user, dict, _) =>
      if a == agent && i == id then Some(Entry(if entry.Some? then entry.value.user else user, Object(dict))) else entry
    case Delete(agent, id) => if a == agent && i == id then None else entry
    case Clear(agent) => if a == agent then None else entry
  }

  function Run(rows: seq<Row>, statements: seq<Statement>, n: nat): seq<Row>
    requires n <= |statements|
  {
    if n == 0 then rows else Apply(Run(rows, statements, n - 1), statements[n - 1])
  }

  function RunOnEntry(entry: Option<Entry>, statements: seq<Statement>, n: nat, a: int, i: string): Option<Entry>
    requires n <= |statements|
  {
    if n == 0 then entry else ApplyToEntry(RunOnEntry(entry, statements, n - 1, a, i), statements[n - 1], a, i)
  }

  lemma StatementRefinesMap(rows: seq<Row>, s: Statement, a: int, i: string)
    requires Count(rows, a, i) <= 1
    ensures Count(Apply(rows, s), a, i) <= 1
    ensures Stored(Apply(rows, s), a, i) == ApplyToEntry(Stored(rows, a, i), s, a, i)
  {
    match s
    case Upsert(agent, id, user, dict, now) => AfterUpsert(rows, agent, id, user, dict, now, a, i);
    case Delete(agent, id) => AfterFilter(rows, NotMatching(agent, id), a, i, !(a == agent && i == id));
    case Clear(agent) => AfterFilter(rows, OutOfReach(agent), a, i, a != agent);
  }

  lemma {:induction false} RunRefinesEntry(rows: seq<Row>, statements: seq<Statement>, n: nat, a: int, i: string)
    requires n <= |statements| && Count(rows, a, i) <= 1
    ensures Count(Run(rows, statements, n), a, i) <= 1
    ensures Stored(Run(rows, statements, n), a, i) == RunOnEntry(Stored(rows, a, i), statements, n, a, i)
    decreases n
  {
    if n > 0 {
      RunRefinesEntry(rows, statements, n - 1, a, i);
      var before, entry := Run(rows, statements, n - 1), RunOnEntry(Stored(rows, a, i), statements, n - 1, a, i);
      StatementRefinesMap(before, statements[n - 1], a, i);
      assert Run(rows, statements, n) == Apply(before, statements[n - 1]);
      assert RunOnEntry(Stored(rows, a, i), statements, n, a, i) == ApplyToEntry(entry, statements[n - 1], a, i);
    }
  }

  /** Whatever the agents write, delete and clear, the rows stay a map, and the map the statements describe. */
  lemma RowsRefineMap(rows: seq<Row>, statements: seq<Statement>)
    requires Unique(rows)
    ensures Unique(Run(rows, statements, |statements|))
    ensures forall a: int, i: string ::
      Stored(Run(rows, statements, |statements|), a, i)
          == RunOnEntry(Stored(rows, a, i), statements, |statements|, a, i)
  {
    forall a: int, i: string
      ensures Count(Run(rows, statements, |statements|), a, i) <= 1
      ensures Stored(Run(rows, statements, |statements|), a, i)
        == RunOnEntry(Stored(rows, a, i), statements, |statements|, a, i)
    {
      RunRefinesEntry(rows, statements, |statements|, a, i);
    }
  }

  /** Copy by copy: what a statement leaves of a row of another agent, or of one without a source id. */
  lemma OthersKeepTheirRows(rows: seq<Row>, s: Statement, row: Row)
    requires row.agent != s.agent || row.source.None?
    ensures multiset(Apply(rows, s))[row] == multiset(rows)[row]
  {
    OthersAreUntouched(rows, s);
    FilterCounts(Apply(rows, s), OutOfReach(s.agent), row);
    FilterCounts(rows, OutOfReach(s.agent), row);
  }

  /** No statement touches a row of another agent, or one that has no source id, or changes their order. */
  lemma OthersAreUntouched(rows: seq<Row>, s: Statement)
    ensures Filter(Apply(rows, s), OutOfReach(s.agent)) == Filter(rows, OutOfReach(s.agent))
  {
    match s
    case Upsert(agent, id, user, dict, now) =>
      RewriteKeepsOthers(rows, agent, id, dict, now);
      FilterSnoc(rows, Row(agent, user, Object(dict), Some(id), now, now), OutOfReach(agent));
    case Delete(agent, id) => FilterTwice(rows, NotMatching(agent, id), OutOfReach(agent));
    case Clear(agent) => FilterTwice(rows, OutOfReach(agent), OutOfReach(agent));
  }

  // ---------------------------------------------------------------------------------------------
  // Reading back
  // ---------------------------------------------------------------------------------------------

  /** With one row for the key, the entry is that row. */
  lemma {:induction false} StoredIsTheRow(rows: seq<Row>, agent: int, id: string, row: Row)
    requires Count(rows, agent, id) <= 1 && row in rows && Matches(row, agent, id)
    ensures Stored(rows, agent, id) == Some(Entry(row.user, row.content))
    decreases |rows|
  {
    var n := |rows| - 1;
    if rows[n] != row {
      assert row in rows[..n];
      StoredIsTheRow(rows[..n], agent, id, row);
      CountMatches(rows[..n], agent, id);
    }
  }

  lemma {:induction false} StoredHasARow(rows: seq<Row>, agent: int, id: string) returns (row: Row)
    requires Stored(rows, agent, id).Some?
    ensures row in rows && Matches(row, agent, id)
    ensures Stored(rows, agent, id) == Some(Entry(row.user, row.content))
    decreases |rows|
  {
    row := rows[|rows| - 1];
    if !Matches(row, agent, id) {
      row := StoredHasARow(rows[..|rows| - 1], agent, id);
    }
  }

  /**
   Reading after an upsert finds the memory under its id, exactly when the reader asks for all users or for the user
   the id was first stored for, which is not always the user of the upsert.
   */
  lemma ReadAfterUpsert(rows: seq<Row>, agent: int, id: string, user: Option<string>, dict: Dict, now: int,
                        reader: Option<string>, descending: bool)
    requires Unique(rows)
    ensures var upserted := Upserted(rows, agent, id, user, dict, now);
      var owner := if Stored(rows, agent, id).Some? then Stored(rows, agent, id).value.user else user;
      && ((exists row :: row in Selected(upserted, agent, reader, None, descending) && row.source == Some(id))
          <==> reader.None? || reader == owner)
      && forall row | row in Selected(upserted, agent, reader, None, descending) && row.source == Some(id) ::
           row.content == Object(dict) && AsMemory(row).memory == dict["memory_id" := id] && row.user == owner
  {
    var upserted := Upserted(rows, agent, id, user, dict, now);
    AfterUpsert(rows, agent, id, user, dict, now, agent, id);
    VisibleRows(upserted, agent, reader, None, descending);
    forall row | row in Selected(upserted, agent, reader, None, descending) && row.source == Some(id)
      ensures Stored(upserted, agent, id) == Some(Entry(row.user, row.content))
    {
      StoredIsTheRow(upserted, agent, id, row);
    }
    var row := StoredHasARow(upserted, agent, id);
    assert reader.None? || reader == row.user ==> Visible(agent, reader)(row);
  }
}
