/**
 * The tables that hang off an activity: `activity_contexts` (its contexts)
 * and `activity_time_slots` (its time slots). The builders write them with
 * two kinds of statement, a DELETE of every row of one activity and an INSERT
 * of one row. `ChildOp` is that statement's meaning and `Render` its text;
 * `Apply` runs the meaning on a table held as a sequence of rows, which is what
 * lets the lemmas say what a sequence of statements does to the table.
 */
module Links {
  import opened Text
  import opened Placeholders
  import opened Sql

  datatype ChildTable = ContextLinks | TimeSlotRows

  /** A row: the owning activity's id and the values of the other columns, in column order. */
  datatype ChildRow = ChildRow(activityId: int, values: seq<SqlValue>)

  datatype ChildOp = Clear(activityId: int) | Add(activityId: int, values: seq<SqlValue>)

  function TableName(t: ChildTable): string {
    match t
    case ContextLinks => "activity_contexts"
    case TimeSlotRows => "activity_time_slots"
  }

  /** The number of values a row holds besides its activity id. */
  function RowWidth(t: ChildTable): nat {
    match t
    case ContextLinks => 1
    case TimeSlotRows => 3
  }

  /** The DELETE that clears one activity's rows: its one placeholder is the activity id. */
  function ClearSql(t: ChildTable): (r: string)
    ensures Occurrences('?', r) == 1
  {
    var head := "DELETE FROM " + TableName(t) + " WHERE activity_id = ";
    DeleteHeadPlain(t);
    OccurrencesAppend('?', head, "?");
    assert "?"[1..] == "";
    head + "?"
  }

  /** The column list of an INSERT: the activity id first, then the row's other columns. */
  function ColumnList(t: ChildTable): string {
    match t
    case ContextLinks => " (activity_id, context_id)"
    case TimeSlotRows => " (activity_id, day_of_week, " + "time_start, time_end)"
  }

  /** `?, ?, ..., ?` with `n` placeholders. */
  function MarkList(n: nat): (r: string)
    ensures Occurrences('?', r) == n
  {
    if n == 0 then ""
    else if n == 1 then
      assert "?"[1..] == "";
      "?"
    else
      var rest := MarkList(n - 1);
      WithOnePlaceholder(", ");
      assert ", " + "?" == ", ?";
      OccurrencesAppend('?', rest, ", ?");
      rest + ", ?"
  }

  /**
   * The INSERT of one row, `INSERT INTO activity_contexts (activity_id, context_id) VALUES (?, ?)`
   * or `INSERT INTO activity_time_slots (activity_id, day_of_week, time_start, time_end) VALUES (?, ?, ?, ?)`:
   * one placeholder for the activity id and one for each other value of the row.
   */
  function AddSql(t: ChildTable): (r: string)
    ensures Occurrences('?', r) == 1 + RowWidth(t)
  {
    var head := "INSERT INTO " + TableName(t) + ColumnList(t) + " VALUES (";
    var marks := MarkList(1 + RowWidth(t));
    InsertHeadPlain(t);
    OccurrencesAppend('?', head, marks);
    OccurrencesAppend('?', head + marks, ")");
    CloseFree();
    head + marks + ")"
  }

  lemma TableNamePlain(t: ChildTable)
    ensures Occurrences('?', TableName(t)) == 0
  {
    match t
    case ContextLinks => ContextLinksFree();
    case TimeSlotRows => TimeSlotRowsFree();
  }

  lemma ColumnListPlain(t: ChildTable)
    ensures Occurrences('?', ColumnList(t)) == 0
  {
    match t
    case ContextLinks =>
      ContextColumnsFree();
    case TimeSlotRows =>
      SlotColumnsFree();
      SlotTimesFree();
      OccurrencesAppend('?', " (activity_id, day_of_week, ", "time_start, time_end)");
  }

  lemma DeleteHeadPlain(t: ChildTable)
    ensures Occurrences('?', "DELETE FROM " + TableName(t) + " WHERE activity_id = ") == 0
  {
    TableNamePlain(t);
    DeleteKeywordFree();
    WhereActivityFree();
    OccurrencesAppend('?', "DELETE FROM ", TableName(t));
    OccurrencesAppend('?', "DELETE FROM " + TableName(t), " WHERE activity_id = ");
  }

  lemma InsertHeadPlain(t: ChildTable)
    ensures Occurrences('?', "INSERT INTO " + TableName(t) + ColumnList(t) + " VALUES (") == 0
  {
    TableNamePlain(t);
    ColumnListPlain(t);
    InsertKeywordFree();
    ValuesKeywordFree();
    OccurrencesAppend('?', "INSERT INTO ", TableName(t));
    OccurrencesAppend('?', "INSERT INTO " + TableName(t), ColumnList(t));
    OccurrencesAppend('?', "INSERT INTO " + TableName(t) + ColumnList(t), " VALUES (");
  }

  /**
   * Each statement has one placeholder per argument it binds: the DELETE binds
   * the activity id alone, and the INSERT of a row of the table's width binds
   * the activity id and the row's values.
   */
  lemma RenderPlaceholders(t: ChildTable, op: ChildOp)
    requires op.Add? ==> |op.values| == RowWidth(t)
    ensures Occurrences('?', Render(t, op).sql) == |Render(t, op).args|
  {}

  /** The text and arguments of an operation's statement: the activity id binds the first placeholder. */
  function Render(t: ChildTable, op: ChildOp): (st: Statement)
    ensures op.Clear? ==> st.args == [Num(op.activityId)]
    ensures op.Add? ==> st.args == [Num(op.activityId)] + op.values
  {
    match op
    case Clear(id) => Statement(ClearSql(t), [Num(id)])
    case Add(id, values) => Statement(AddSql(t), [Num(id)] + values)
  }

  function RenderAll(t: ChildTable, ops: seq<ChildOp>): (r: seq<Statement>)
    ensures |r| == |ops| && forall k :: 0 <= k < |ops| ==> r[k] == Render(t, ops[k])
  {
    if ops == [] then [] else [Render(t, ops[0])] + RenderAll(t, ops[1..])
  }

  lemma RenderAllAppend(t: ChildTable, a: seq<ChildOp>, b: seq<ChildOp>)
    ensures RenderAll(t, a + b) == RenderAll(t, a) + RenderAll(t, b)
  {}

  /** The rows of every other activity, in order. */
  function Without(rows: seq<ChildRow>, id: int): (r: seq<ChildRow>)
    ensures forall x :: x in r <==> x in rows && x.activityId != id
  {
    if rows == [] then []
    else (if rows[0].activityId == id then [] else [rows[0]]) + Without(rows[1..], id)
  }

  /** The values of the rows of one activity, in table order. */
  function ChildrenOf(rows: seq<ChildRow>, id: int): seq<seq<SqlValue>> {
    if rows == [] then []
    else (if rows[0].activityId == id then [rows[0].values] else []) + ChildrenOf(rows[1..], id)
  }

  /** One statement run on the table: it changes only the rows of its own activity. */
  function Apply(rows: seq<ChildRow>, op: ChildOp): (r: seq<ChildRow>)
    ensures ChildrenOf(r, op.activityId) ==
            if op.Clear? then [] else ChildrenOf(rows, op.activityId) + [op.values]
    ensures forall other :: other != op.activityId ==> ChildrenOf(r, other) == ChildrenOf(rows, other)
  {
    match op
    case Clear(id) =>
      assert forall other :: ChildrenOf(Without(rows, id), other) == if other == id then [] else ChildrenOf(rows, other) by {
        forall other ensures ChildrenOf(Without(rows, id), other) == if other == id then [] else ChildrenOf(rows, other) {
          ChildrenOfWithout(rows, id, other);
        }
      }
      Without(rows, id)
    case Add(id, values) =>
      assert forall other :: ChildrenOf(rows + [ChildRow(id, values)], other) ==
                             ChildrenOf(rows, other) + (if other == id then [values] else []) by {
        forall other ensures ChildrenOf(rows + [ChildRow(id, values)], other) ==
                             ChildrenOf(rows, other) + (if other == id then [values] else []) {
          ChildrenOfAppend(rows, [ChildRow(id, values)], other);
          assert [ChildRow(id, values)][1..] == [];
        }
      }
      rows + [ChildRow(id, values)]
  }

  function ApplyAll(rows: seq<ChildRow>, ops: seq<ChildOp>): seq<ChildRow>
    decreases |ops|
  {
    if ops == [] then rows else ApplyAll(Apply(rows, ops[0]), ops[1..])
  }

  /** One INSERT per item, in order. */
  function AddAll(id: int, items: seq<seq<SqlValue>>): (r: seq<ChildOp>)
    ensures |r| == |items| && forall k :: 0 <= k < |items| ==> r[k] == Add(id, items[k])
  {
    if items == [] then [] else [Add(id, items[0])] + AddAll(id, items[1..])
  }

  lemma AddAllSnoc(id: int, items: seq<seq<SqlValue>>, x: seq<SqlValue>)
    ensures AddAll(id, items + [x]) == AddAll(id, items) + [Add(id, x)]
  {}

  /** The DELETE of the old rows, then one INSERT per new item. */
  function Replace(id: int, items: seq<seq<SqlValue>>): (r: seq<ChildOp>)
    ensures |r| == |items| + 1 && r[0] == Clear(id)
    ensures forall k :: 0 <= k < |items| ==> r[k + 1] == Add(id, items[k])
  {
    [Clear(id)] + AddAll(id, items)
  }

  lemma {:induction false} ChildrenOfAppend(a: seq<ChildRow>, b: seq<ChildRow>, id: int)
    ensures ChildrenOf(a + b, id) == ChildrenOf(a, id) + ChildrenOf(b, id)
  {
    if a != [] {
      assert (a + b)[1..] == a[1..] + b;
      ChildrenOfAppend(a[1..], b, id);
    } else {
      assert a + b == b;
    }
  }

  lemma {:induction false} ChildrenOfWithout(rows: seq<ChildRow>, id: int, other: int)
    ensures ChildrenOf(Without(rows, id), other) == if other == id then [] else ChildrenOf(rows, other)
  {
    if rows != [] {
      ChildrenOfWithout(rows[1..], id, other);
      var head := if rows[0].activityId == id then [] else [rows[0]];
      ChildrenOfAppend(head, Without(rows[1..], id), other);
    }
  }

  /**
   * Running the INSERTs of `items` appends exactly those items to the
   * activity's rows, in order, and changes no other activity's rows.
   */
  lemma {:induction false} AddAllAppends(rows: seq<ChildRow>, id: int, items: seq<seq<SqlValue>>, other: int)
    ensures ChildrenOf(ApplyAll(rows, AddAll(id, items)), other) ==
            ChildrenOf(rows, other) + (if other == id then items else [])
    decreases |items|
  {
    if items != [] {
      var next := rows + [ChildRow(id, items[0])];
      assert AddAll(id, items)[1..] == AddAll(id, items[1..]);
      AddAllAppends(next, id, items[1..], other);
      ChildrenOfAppend(rows, [ChildRow(id, items[0])], other);
      assert ChildrenOf([ChildRow(id, items[0])], other) == if other == id then [items[0]] else [];
      if other == id {
        assert [items[0]] + items[1..] == items;
      }
    }
  }

  /**
   * Replacing an activity's rows leaves it with exactly the given items, in the
   * given order, whatever it had before, and leaves every other activity's rows alone.
   */
  lemma ReplaceExactly(rows: seq<ChildRow>, id: int, items: seq<seq<SqlValue>>, other: int)
    ensures ChildrenOf(ApplyAll(rows, Replace(id, items)), other) ==
            if other == id then items else ChildrenOf(rows, other)
  {
    var cleared := Without(rows, id);
    assert ApplyAll(rows, Replace(id, items)) == ApplyAll(cleared, AddAll(id, items)) by {
      assert Replace(id, items)[0] == Clear(id);
      assert Replace(id, items)[1..] == AddAll(id, items);
    }
    AddAllAppends(cleared, id, items, other);
    ChildrenOfWithout(rows, id, other);
  }

  /** `for (const item of items) await db.execute(INSERT ...)`: the statements the loop issues. */
  method InsertChildren(t: ChildTable, id: int, items: seq<seq<SqlValue>>) returns (stmts: seq<Statement>)
    ensures stmts == RenderAll(t, AddAll(id, items))
  {
    stmts := [];
    for k := 0 to |items|
      invariant stmts == RenderAll(t, AddAll(id, items[..k]))
    {
      var op := Add(id, items[k]);
      InsertStep(t, id, items, k);
      stmts := stmts + [Render(t, op)];
    }
    assert items[..|items|] == items;
  }

  lemma InsertStep(t: ChildTable, id: int, items: seq<seq<SqlValue>>, k: nat)
    requires k < |items|
    ensures RenderAll(t, AddAll(id, items[..k + 1])) == RenderAll(t, AddAll(id, items[..k])) + [Render(t, Add(id, items[k]))]
  {
    assert items[..k + 1] == items[..k] + [items[k]];
    RenderSnoc(t, id, items[..k], items[k]);
  }

  lemma RenderSnoc(t: ChildTable, id: int, prefix: seq<seq<SqlValue>>, x: seq<SqlValue>)
    ensures RenderAll(t, AddAll(id, prefix + [x])) == RenderAll(t, AddAll(id, prefix)) + [Render(t, Add(id, x))]
  {
    AddAllSnoc(id, prefix, x);
    RenderAllAppend(t, AddAll(id, prefix), [Add(id, x)]);
    assert RenderAll(t, [Add(id, x)]) == [Render(t, Add(id, x))];
  }

  /** The DELETE, then the INSERT loop. */
  method ReplaceChildren(t: ChildTable, id: int, items: seq<seq<SqlValue>>) returns (stmts: seq<Statement>)
    ensures stmts == RenderAll(t, Replace(id, items))
  {
    var inserts := InsertChildren(t, id, items);
    RenderAllAppend(t, [Clear(id)], AddAll(id, items));
    stmts := [Render(t, Clear(id))] + inserts;
  }

  /** The rows of `activity_contexts` for a list of context ids: one `[context_id]` each. */
  function ContextItems(contextIds: seq<int>): (r: seq<seq<SqlValue>>)
    ensures |r| == |contextIds| && forall k :: 0 <= k < |r| ==> r[k] == [Num(contextIds[k])]
  {
    if contextIds == [] then [] else [[Num(contextIds[0])]] + ContextItems(contextIds[1..])
  }
}
