/** Agent memories kept as rows of one shared table: app/agno_runtime/memory_db.py. */
module MemoryStore {
  import opened Prelude
  import opened Sorting

  type Dict = map<string, string>

  /** What json.loads makes of a row's content: an object, another JSON value, or no JSON at all. */
  datatype Content = Object(dict: Dict) | OtherJson(text: string) | Plain(text: string)

  datatype Row = Row(agent: int, user: Option<string>, content: Content, source: Option<string>, createdAt: int,
                     updatedAt: int)

  datatype MemoryRow = MemoryRow(id: string, user: Option<string>, memory: Dict, lastUpdated: int)

  predicate Matches(row: Row, agent: int, id: string) {
    row.agent == agent && row.source == Some(id)
  }

  function Matching(agent: int, id: string): Row -> bool {
    (row: Row) => Matches(row, agent, id)
  }

  function NotMatching(agent: int, id: string): Row -> bool {
    (row: Row) => !Matches(row, agent, id)
  }

  /** What clear leaves: other agents' rows, and the agent's rows without a source id. */
  function OutOfReach(agent: int): Row -> bool {
    (row: Row) => row.agent != agent || row.source.None?
  }

  function Rewrite(agent: int, id: string, dict: Dict, now: int): Row -> Row {
    (row: Row) => if Matches(row, agent, id) then row.(content := Object(dict), updatedAt := now) else row
  }

  /** The rows after upsert_memory. */
  function Upserted(rows: seq<Row>, agent: int, id: string, user: Option<string>, dict: Dict, now: int): seq<Row> {
    if Filter(rows, Matching(agent, id)) != [] then Map(rows, Rewrite(agent, id, dict, now))
    else rows + [Row(agent, user, Object(dict), Some(id), now, now)]
  }

  function Visible(agent: int, user: Option<string>): Row -> bool {
    (row: Row) => row.agent == agent && row.source.Some? && (user.Some? ==> row.user == user)
  }

  function Created(descending: bool): Row -> int {
    if descending then (row: Row) => -row.createdAt else (row: Row) => row.createdAt
  }

  /** The rows of one read_memories query. */
  function Selected(rows: seq<Row>, agent: int, user: Option<string>, limit: Option<nat>, descending: bool): seq<Row> {
    var found := Sort(Filter(rows, Visible(agent, user)), Created(descending));
    if limit.Some? && limit.value < |found| then found[..limit.value] else found
  }

  function AsMemory(row: Row): MemoryRow
    requires row.source.Some? && !row.content.OtherJson?
  {
    var dict := if row.content.Object? then row.content.dict else map["memory" := row.content.text];
    MemoryRow(row.source.value, row.user, dict["memory_id" := row.source.value], row.createdAt)
  }

  class Table {
    var rows: seq<Row>

    constructor ()
      ensures rows == []
    {
      rows := [];
    }
  }

  lemma VisibleRows(rows: seq<Row>, agent: int, user: Option<string>, limit: Option<nat>, descending: bool)
    ensures forall row | row in Selected(rows, agent, user, limit, descending) ::
      row in rows && Visible(agent, user)(row)
    ensures limit.None? ==> forall row | row in rows && Visible(agent, user)(row) ::
      row in Selected(rows, agent, user, limit, descending)
  {
    var visible := Filter(rows, Visible(agent, user));
    var found := Sort(visible, Created(descending));
    FilterMembers(rows, Visible(agent, user));
    SortSorts(visible, Created(descending));
    forall row
      ensures row in found <==> row in visible
    {
      assert row in found <==> row in multiset(found);
      assert row in visible <==> row in multiset(visible);
    }
  }

  /** The agent's rows that have an id, of the user if one is given: no others, and without a limit all of them. */
  lemma SelectedRows(rows: seq<Row>, agent: int, user: Option<string>, limit: Option<nat>, descending: bool, row: Row)
    ensures var mine := row in rows && row.agent == agent && row.source.Some? && (user.None? || row.user == user);
      && (row in Selected(rows, agent, user, limit, descending) ==> mine)
      && (limit.None? ==> (row in Selected(rows, agent, user, limit, descending) <==> mine))
  {
    VisibleRows(rows, agent, user, limit, descending);
    assert Visible(agent, user)(row)
      <==> row.agent == agent && row.source.Some? && (user.None? || row.user == user);
  }

  /** By creation time, in the order asked for; a limit leaves the first rows of that order. */
  lemma SelectionIsSorted(rows: seq<Row>, agent: int, user: Option<string>, limit: Option<nat>, descending: bool)
    ensures var found := Selected(rows, agent, user, limit, descending);
      var visible := |Filter(rows, Visible(agent, user))|;
      && |found| == (if limit.Some? && limit.value < visible then limit.value else visible)
      && found <= Selected(rows, agent, user, None, descending)
      && forall i, j | 0 <= i < j < |found| ::
           if descending then found[i].createdAt >= found[j].createdAt else found[i].createdAt <= found[j].createdAt
  {
    var visible := Filter(rows, Visible(agent, user));
    var sorted := Sort(visible, Created(descending));
    SortSorts(visible, Created(descending));
    SameSize(sorted, visible);
    forall i, j | 0 <= i < j < |sorted|
      ensures if descending then sorted[i].createdAt >= sorted[j].createdAt
              else sorted[i].createdAt <= sorted[j].createdAt
    {
      assert Created(descending)(sorted[i]) <= Created(descending)(sorted[j]);
    }
  }

  /** What the agent is given of a row: its object, or its text under "memory", and its id in either case. */
  lemma MemoryOfRow(row: Row)
    requires row.source.Some? && !row.content.OtherJson?
    ensures var memory := AsMemory(row);
      && memory.id == row.source.value && memory.user == row.user && memory.lastUpdated == row.createdAt
      && memory.memory.Keys == (if row.content.Object? then row.content.dict.Keys else {"memory"}) + {"memory_id"}
      && memory.memory["memory_id"] == row.source.value
      && (row.content.Plain? ==> memory.memory["memory"] == row.content.text)
      && (row.content.Object? ==>
            forall k | k in row.content.dict && k != "memory_id" :: memory.memory[k] == row.content.dict[k])
  {
  }

  /** Where the agent has a row under the id its content is replaced, and nothing else moves or changes. */
  lemma UpsertedRows(rows: seq<Row>, agent: int, id: string, user: Option<string>, dict: Dict, now: int)
    ensures var upserted := Upserted(rows, agent, id, user, dict, now);
      if exists i | 0 <= i < |rows| :: rows[i].agent == agent && rows[i].source == Some(id) then
        && |upserted| == |rows|
        && forall i | 0 <= i < |rows| ::
             upserted[i] == if rows[i].agent == agent && rows[i].source == Some(id)
                            then rows[i].(content := Object(dict), updatedAt := now) else rows[i]
      else upserted == rows + [Row(agent, user, Object(dict), Some(id), now, now)]
  {
    FilterEmptyIff(rows, Matching(agent, id));
    MapAt(rows, Rewrite(agent, id, dict, now));
  }

  /** Delete takes every row of the agent under the id, clear every row of the agent with an id; copies and all. */
  lemma RemovedRows(rows: seq<Row>, agent: int, id: string, row: Row)
    ensures multiset(Filter(rows, NotMatching(agent, id)))[row]
         == if row.agent == agent && row.source == Some(id) then 0 else multiset(rows)[row]
    ensures multiset(Filter(rows, OutOfReach(agent)))[row]
         == if row.agent == agent && row.source.Some? then 0 else multiset(rows)[row]
  {
    FilterCounts(rows, NotMatching(agent, id), row);
    FilterCounts(rows, OutOfReach(agent), row);
  }

  class PlatformMemoryDb {
    const agent: int
    const table: Table

    constructor (agent: int, table: Table)
      ensures this.agent == agent && this.table == table
    {
      this.agent, this.table := agent, table;
    }

    method Clear()
      modifies table
      ensures table.rows == Filter(old(table.rows), OutOfReach(agent))
    {
      table.rows := Filter(table.rows, OutOfReach(agent));
    }

    method MemoryExists(id: string) returns (found: bool)
      ensures found <==>
        exists i | 0 <= i < |table.rows| :: table.rows[i].agent == agent && table.rows[i].source == Some(id)
    {
      FilterEmptyIff(table.rows, Matching(agent, id));
      found := Filter(table.rows, Matching(agent, id)) != [];
    }

    /**
     read_memories: the selected rows as memories, in order. None models the TypeError of a row whose content is JSON
     but no object.
     */
    method ReadMemories(user: Option<string>, limit: Option<nat>, descending: bool)
      returns (memories: Option<seq<MemoryRow>>)
      ensures var rows := Selected(table.rows, agent, user, limit, descending);
        && (memories.None? <==> exists i | 0 <= i < |rows| :: rows[i].content.OtherJson?)
        && (memories.Some? ==>
             && |memories.value| == |rows|
             && forall i | 0 <= i < |rows| ::
               rows[i].source.Some? && !rows[i].content.OtherJson? && memories.value[i] == AsMemory(rows[i]))
    {
      var rows := Selected(table.rows, agent, user, limit, descending);
      VisibleRows(table.rows, agent, user, limit, descending);
      var results := [];
      for i := 0 to |rows|
        invariant |results| == i
        invariant forall j | 0 <= j < i ::
          rows[j].source.Some? && !rows[j].content.OtherJson? && results[j] == AsMemory(rows[j])
      {
        var row := rows[i];
        assert row in rows;
        var dict;
        match row.content {
          case Object(parsed) => dict := parsed;
          case Plain(text) => dict := map["memory" := text];
          case OtherJson(_) => return None;
        }
        dict := dict["memory_id" := row.source.value];
        results := results + [MemoryRow(row.source.value, row.user, dict, row.createdAt)];
      }
      memories := Some(results);
    }

    /** upsert_memory: an existing row gets the new content, and keeps its user. */
    method UpsertMemory(id: string, user: Option<string>, dict: Dict, now: int)
      modifies table
      ensures table.rows == Upserted(old(table.rows), agent, id, user, dict, now)
    {
      var existing := Filter(table.rows, Matching(agent, id));
      if existing != [] {
        table.rows := Map(table.rows, Rewrite(agent, id, dict, now));
      } else {
        table.rows := table.rows + [Row(agent, user, Object(dict), Some(id), now, now)];
      }
    }

    method DeleteMemory(id: string)
      modifies table
      ensures table.rows == Filter(old(table.rows), NotMatching(agent, id))
    {
      table.rows := Filter(table.rows, NotMatching(agent, id));
    }
  }
}
