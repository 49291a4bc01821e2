/** Placeholder counts of the fixed pieces of statement text. */
module Placeholders {
  import opened Text

  lemma {:induction false} NoOccurrences(c: char, s: string)
    requires forall k :: 0 <= k < |s| ==> s[k] != c
    ensures Occurrences(c, s) == 0
  {
    if s != [] {
      NoOccurrences(c, s[1..]);
    }
  }

  lemma UpdateKeywordFree()
    ensures Occurrences('?', "UPDATE ") == 0
  {
    NoOccurrences('?', "UPDATE ");
  }

  lemma SetKeywordFree()
    ensures Occurrences('?', " SET ") == 0
  {
    NoOccurrences('?', " SET ");
  }

  lemma SeparatorFree()
    ensures Occurrences('?', ", ") == 0
  {
    NoOccurrences('?', ", ");
  }

  /** `column = ?` holds exactly the one placeholder. */
  lemma ClauseHoldsOne(column: string)
    requires Occurrences('?', column) == 0
    ensures Occurrences('?', column + " = ?") == 1
  {
    SetPlaceholder();
    OccurrencesAppend('?', column, " = ?");
  }

  lemma SetPlaceholder()
    ensures Occurrences('?', " = ?") == 1
  {
    WithOnePlaceholder(" = ");
    assert " = " + "?" == " = ?";
  }

  lemma WherePlaceholder()
    ensures Occurrences('?', " WHERE id = ?") == 1
  {
    WithOnePlaceholder(" WHERE id = ");
    assert " WHERE id = " + "?" == " WHERE id = ?";
  }

  // The pieces of the child-table statements hold no placeholder.

  lemma DeleteKeywordFree()
    ensures Occurrences('?', "DELETE FROM ") == 0
  {
    NoOccurrences('?', "DELETE FROM ");
  }

  lemma WhereActivityFree()
    ensures Occurrences('?', " WHERE activity_id = ") == 0
  {
    NoOccurrences('?', " WHERE activity_id = ");
  }

  lemma InsertKeywordFree()
    ensures Occurrences('?', "INSERT INTO ") == 0
  {
    NoOccurrences('?', "INSERT INTO ");
  }

  lemma ValuesKeywordFree()
    ensures Occurrences('?', " VALUES (") == 0
  {
    NoOccurrences('?', " VALUES (");
  }

  lemma CloseFree()
    ensures Occurrences('?', ")") == 0
  {
    NoOccurrences('?', ")");
  }

  lemma ContextLinksFree()
    ensures Occurrences('?', "activity_contexts") == 0
  {
    NoOccurrences('?', "activity_contexts");
  }

  lemma TimeSlotRowsFree()
    ensures Occurrences('?', "activity_time_slots") == 0
  {
    NoOccurrences('?', "activity_time_slots");
  }

  lemma ContextColumnsFree()
    ensures Occurrences('?', " (activity_id, context_id)") == 0
  {
    NoOccurrences('?', " (activity_id, context_id)");
  }

  lemma SlotColumnsFree()
    ensures Occurrences('?', " (activity_id, day_of_week, ") == 0
  {
    NoOccurrences('?', " (activity_id, day_of_week, ");
  }

  lemma SlotTimesFree()
    ensures Occurrences('?', "time_start, time_end)") == 0
  {
    NoOccurrences('?', "time_start, time_end)");
  }

  lemma WithOnePlaceholder(text: string)
    requires forall k :: 0 <= k < |text| ==> text[k] != '?'
    ensures Occurrences('?', text + "?") == 1
  {
    NoOccurrences('?', text);
    OccurrencesAppend('?', text, "?");
  }

}

/**
 * Statements handed to the data store, as data. The store itself is not
 * modelled: a builder's result is the text and the positional arguments the
 * source passes to `db.execute`.
 */
module Sql {
  import opened Wrappers
  import opened Text
  import opened Placeholders
  import opened Ranking

  /** A positional argument: SQL NULL, a number, a string, or a `JSON.stringify`'d string array. */
  datatype SqlValue = Null | Num(n: int) | Str(s: string) | JsonArray(items: seq<string>)

  datatype Statement = Statement(sql: string, args: seq<SqlValue>)

  /** The columns the builders set or filter on. */
  datatype Column = Name | Label | Days | TimeStart | TimeEnd | Title | Description | CategoryId
                  | EnergyLevel | Energy | Priority | IsCompleted | Color | Icon

  /** The column's name in the schema. */
  function ColumnName(c: Column): string {
    match c
    case Name => "name"
    case Label => "label"
    case Days => "days"
    case TimeStart => "time_start"
    case TimeEnd => "time_end"
    case Title => "title"
    case Description => "description"
    case CategoryId => "category_id"
    case EnergyLevel => "energy_level"
    case Energy => "energy"
    case Priority => "priority"
    case IsCompleted => "is_completed"
    case Color => "color"
    case Icon => "icon"
  }

  /** One `column = ?` of an UPDATE, with the value bound to its placeholder. */
  datatype Assignment = Assignment(column: Column, value: SqlValue)

  /** `x || null` for an optional string: a missing or empty string becomes NULL. */
  function OrNull(s: Option<string>): (v: SqlValue)
    ensures v == Null <==> s.None? || s.value == ""
    ensures v != Null ==> v == Str(s.value)
  {
    if s.Some? && s.value != "" then Str(s.value) else Null
  }

  /** `x || null` for a field of an update request: `null` and the empty string both become NULL. */
  function PatchOrNull(p: Patch<string>): (v: SqlValue)
    requires p.Given()
    ensures v == Null <==> p.SetNull? || p.value == ""
    ensures v != Null ==> v == Str(p.value)
  {
    if p.SetTo? && p.value != "" then Str(p.value) else Null
  }

  /** `days ? JSON.stringify(days) : null`: any array, even an empty one, is stored as JSON. */
  function JsonOrNull(days: Option<seq<string>>): (v: SqlValue)
    ensures v == Null <==> days.None?
    ensures days.Some? ==> v == JsonArray(days.value)
  {
    if days.Some? then JsonArray(days.value) else Null
  }

  /** `x || null` for an optional number: a missing value or 0 becomes NULL. */
  function NumOrNull(n: Option<int>): (v: SqlValue)
    ensures v == Null <==> n.None? || n.value == 0
    ensures v != Null ==> v == Num(n.value)
  {
    if n.Some? && n.value != 0 then Num(n.value) else Null
  }

  /** `x || null` for a number field of an update request: `null` and 0 both become NULL. */
  function PatchNumOrNull(p: Patch<int>): (v: SqlValue)
    requires p.Given()
    ensures v == Null <==> p.SetNull? || p.value == 0
    ensures v != Null ==> v == Num(p.value)
  {
    if p.SetTo? && p.value != 0 then Num(p.value) else Null
  }

  /** `title ? title.trim() : null` for an update request: `null` and "" become NULL, anything else is trimmed. */
  function TrimmedOrNull(p: Patch<string>): (v: SqlValue)
    requires p.Given()
    ensures v == Null <==> p.SetNull? || p.value == ""
    ensures v != Null ==> v == Str(Trim(p.value))
  {
    if p.SetTo? && p.value != "" then Str(Trim(p.value)) else Null
  }

  /** A title of only whitespace is not NULL: it is stored as the empty string. */
  lemma BlankTitleIsEmpty(s: string)
    requires s != [] && forall k :: 0 <= k < |s| ==> IsWhitespace(s[k])
    ensures TrimmedOrNull(SetTo(s)) == Str("")
  {
    TrimEmptyIffBlank(s);
  }

  /** `b ? 1 : 0`. */
  function Flag(b: bool): SqlValue {
    Num(if b then 1 else 0)
  }

  function SetClause(a: Assignment): string {
    ColumnName(a.column) + " = ?"
  }

  /** The `column = ?` clauses of the assignments, in order. */
  function SetClauses(assigns: seq<Assignment>): (r: seq<string>)
    ensures |r| == |assigns|
    ensures forall k :: 0 <= k < |r| ==> r[k] == SetClause(assigns[k])
  {
    if assigns == [] then [] else [SetClause(assigns[0])] + SetClauses(assigns[1..])
  }

  /** The values the assignments bind, in order. */
  function Values(assigns: seq<Assignment>): (r: seq<SqlValue>)
    ensures |r| == |assigns|
    ensures forall k :: 0 <= k < |r| ==> r[k] == assigns[k].value
  {
    if assigns == [] then [] else [assigns[0].value] + Values(assigns[1..])
  }

  function Columns(assigns: seq<Assignment>): (r: seq<Column>)
    ensures |r| == |assigns|
    ensures forall k :: 0 <= k < |r| ==> r[k] == assigns[k].column
  {
    if assigns == [] then [] else [assigns[0].column] + Columns(assigns[1..])
  }

  /** The value the assignments bind to `column`, if they set it. */
  function ValueOf(assigns: seq<Assignment>, column: Column): (v: Option<SqlValue>)
    ensures v.None? <==> column !in Columns(assigns)
  {
    if assigns == [] then None
    else if assigns[0].column == column then Some(assigns[0].value)
    else ValueOf(assigns[1..], column)
  }

  /** Pushing one more `column = ?` and its value extends the clauses and values of the assignments. */
  lemma PushAssignment(fields: seq<string>, args: seq<SqlValue>, assigns: seq<Assignment>, a: Assignment)
    requires fields == SetClauses(assigns) && args == Values(assigns)
    ensures fields + [SetClause(a)] == SetClauses(assigns + [a]) && args + [a.value] == Values(assigns + [a])
  {
    assert forall k :: 0 <= k < |assigns| ==> (assigns + [a])[k] == assigns[k];
  }

  /** The assignment for one column, if the request provides a value for it. */
  function Field(column: Column, v: Option<SqlValue>): (r: seq<Assignment>)
    ensures |r| == if v.Some? then 1 else 0
  {
    if v.Some? then [Assignment(column, v.value)] else []
  }

  /**
   * `if (value !== undefined) { fields.push('column = ?'); args.push(value) }`: one
   * step of a builder, tracked against the assignments collected so far.
   */
  method PushIfGiven(fields: seq<string>, args: seq<SqlValue>, ghost assigns: seq<Assignment>,
                     column: Column, v: Option<SqlValue>)
    returns (fields': seq<string>, args': seq<SqlValue>)
    requires fields == SetClauses(assigns) && args == Values(assigns)
    ensures fields' == SetClauses(assigns + Field(column, v)) && args' == Values(assigns + Field(column, v))
  {
    if v.Some? {
      PushAssignment(fields, args, assigns, Assignment(column, v.value));
      fields' := fields + [ColumnName(column) + " = ?"];
      args' := args + [v.value];
    } else {
      assert assigns + [] == assigns;
      fields', args' := fields, args;
    }
  }

  /**
   * The assignments a builder collects when it examines the request's fields in the
   * order of `cols` and pushes one `col = ?` per given value.
   */
  function Pick(cols: seq<Column>, vals: seq<Option<SqlValue>>): (r: seq<Assignment>)
    requires |cols| == |vals|
    ensures |r| <= |cols|
    ensures r == [] <==> forall i :: 0 <= i < |vals| ==> vals[i].None?
  {
    if cols == [] then [] else Field(cols[0], vals[0]) + Pick(cols[1..], vals[1..])
  }

  lemma {:induction false} PickAppend(c1: seq<Column>, v1: seq<Option<SqlValue>>, c2: seq<Column>, v2: seq<Option<SqlValue>>)
    requires |c1| == |v1| && |c2| == |v2|
    ensures Pick(c1 + c2, v1 + v2) == Pick(c1, v1) + Pick(c2, v2)
  {
    if c1 != [] {
      assert (c1 + c2)[1..] == c1[1..] + c2 && (v1 + v2)[1..] == v1[1..] + v2;
      PickAppend(c1[1..], v1[1..], c2, v2);
    } else {
      assert c1 + c2 == c2 && v1 + v2 == v2;
    }
  }

  /** Five given values, in order. */
  lemma FiveFields(c0: Column, c1: Column, c2: Column, c3: Column, c4: Column,
                   x0: SqlValue, x1: SqlValue, x2: SqlValue, x3: SqlValue, x4: SqlValue)
    ensures Values(Field(c0, Some(x0)) + Field(c1, Some(x1)) + Field(c2, Some(x2)) + Field(c3, Some(x3)) +
                   Field(c4, Some(x4))) == [x0, x1, x2, x3, x4]
  {
    var a := [Assignment(c0, x0), Assignment(c1, x1), Assignment(c2, x2), Assignment(c3, x3), Assignment(c4, x4)];
    assert Field(c0, Some(x0)) + Field(c1, Some(x1)) + Field(c2, Some(x2)) + Field(c3, Some(x3)) +
           Field(c4, Some(x4)) == a;
    assert Values(a)[4] == x4;
  }

  lemma Pick3(c: seq<Column>, v: seq<Option<SqlValue>>)
    requires |c| == 3 && |v| == 3
    ensures Pick(c, v) == Field(c[0], v[0]) + Field(c[1], v[1]) + Field(c[2], v[2])
  {
    assert Pick(c[2..], v[2..]) == Field(c[2], v[2]);
    assert Pick(c[1..], v[1..]) == Field(c[1], v[1]) + Pick(c[2..], v[2..]) by {
      assert c[1..][1..] == c[2..] && v[1..][1..] == v[2..];
    }
  }

  lemma Pick4(c: seq<Column>, v: seq<Option<SqlValue>>)
    requires |c| == 4 && |v| == 4
    ensures Pick(c, v) == Field(c[0], v[0]) + Field(c[1], v[1]) + Field(c[2], v[2]) + Field(c[3], v[3])
  {
    var c', v' := c[1..], v[1..];
    Pick3(c', v');
    assert c'[0] == c[1] && c'[1] == c[2] && c'[2] == c[3];
    assert v'[0] == v[1] && v'[1] == v[2] && v'[2] == v[3];
  }

  lemma Pick5(c: seq<Column>, v: seq<Option<SqlValue>>)
    requires |c| == 5 && |v| == 5
    ensures Pick(c, v) ==
            Field(c[0], v[0]) + Field(c[1], v[1]) + Field(c[2], v[2]) + Field(c[3], v[3]) + Field(c[4], v[4])
  {
    var c', v' := c[1..], v[1..];
    Pick4(c', v');
    assert c'[0] == c[1] && c'[1] == c[2] && c'[2] == c[3] && c'[3] == c[4];
    assert v'[0] == v[1] && v'[1] == v[2] && v'[2] == v[3] && v'[3] == v[4];
  }

  predicate Distinct(cols: seq<Column>) {
    forall i, j :: 0 <= i < j < |cols| ==> cols[i] != cols[j]
  }

  lemma DistinctCons(c: Column, rest: seq<Column>)
    requires c !in rest && Distinct(rest)
    ensures Distinct([c] + rest)
  {
    var s := [c] + rest;
    forall i, j | 0 <= i < j < |s| ensures s[i] != s[j] {
      assert s[j] == rest[j - 1];
      if i > 0 {
        assert s[i] == rest[i - 1];
      }
    }
  }

  lemma {:induction false} ColumnsAppend(a: seq<Assignment>, b: seq<Assignment>)
    ensures Columns(a + b) == Columns(a) + Columns(b)
  {
    if a == [] {
      assert a + b == b;
    } else {
      assert (a + b)[1..] == a[1..] + b;
      ColumnsAppend(a[1..], b);
    }
  }

  /** The columns set appear in the order the builder examines them. */
  lemma {:induction false} PickOrder(cols: seq<Column>, vals: seq<Option<SqlValue>>)
    requires |cols| == |vals|
    ensures IsSubsequence(Columns(Pick(cols, vals)), cols)
  {
    if cols != [] {
      var rest := Pick(cols[1..], vals[1..]);
      PickOrder(cols[1..], vals[1..]);
      ColumnsAppend(Field(cols[0], vals[0]), rest);
      SubsequenceSkip(Columns(rest), cols);
      if vals[0].Some? {
        assert Columns(Pick(cols, vals)) == [cols[0]] + Columns(rest);
        assert ([cols[0]] + Columns(rest))[1..] == Columns(rest);
      } else {
        assert Columns(Pick(cols, vals)) == Columns(rest);
      }
    }
  }

  lemma ValueOfCons(x: Assignment, rest: seq<Assignment>, column: Column)
    ensures ValueOf([x] + rest, column) == if x.column == column then Some(x.value) else ValueOf(rest, column)
  {
    assert ([x] + rest)[1..] == rest;
  }

  /** Each column is bound to exactly the value the request gives it, and unset columns are absent. */
  lemma {:induction false} PickValue(cols: seq<Column>, vals: seq<Option<SqlValue>>, i: int)
    requires |cols| == |vals| && Distinct(cols) && 0 <= i < |cols|
    ensures ValueOf(Pick(cols, vals), cols[i]) == vals[i]
  {
    var rest := Pick(cols[1..], vals[1..]);
    var col := cols[i];
    if i == 0 {
      PickOrder(cols[1..], vals[1..]);
      SubsequenceMembers(Columns(rest), cols[1..]);
      assert col !in cols[1..];
      assert ValueOf(rest, col).None?;
    } else {
      PickValue(cols[1..], vals[1..], i - 1);
      assert cols[1..][i - 1] == col;
      assert vals[1..][i - 1] == vals[i];
    }
    if vals[0].Some? {
      var x := Assignment(cols[0], vals[0].value);
      assert Pick(cols, vals) == [x] + rest;
      ValueOfCons(x, rest, col);
    } else {
      assert Pick(cols, vals) == rest;
    }
  }

  /**
   * What any builder's assignments mean: the set columns come in the order the
   * builder examines them, and each column is bound to exactly its given value.
   */
  lemma PickSpec(cols: seq<Column>, vals: seq<Option<SqlValue>>)
    requires |cols| == |vals| && Distinct(cols)
    ensures IsSubsequence(Columns(Pick(cols, vals)), cols)
    ensures forall i :: 0 <= i < |cols| ==> ValueOf(Pick(cols, vals), cols[i]) == vals[i]
  {
    PickOrder(cols, vals);
    forall i | 0 <= i < |cols| ensures ValueOf(Pick(cols, vals), cols[i]) == vals[i] {
      PickValue(cols, vals, i);
    }
  }

  /** The values the assignments bind are the given values, in column order. */
  lemma {:induction false} PickValues(cols: seq<Column>, vals: seq<Option<SqlValue>>)
    requires |cols| == |vals|
    ensures Values(Pick(cols, vals)) == GivenValues(vals)
  {
    if cols != [] {
      PickValues(cols[1..], vals[1..]);
      var rest := Pick(cols[1..], vals[1..]);
      if vals[0].Some? {
        var x := Assignment(cols[0], vals[0].value);
        assert Pick(cols, vals) == [x] + rest;
        assert ([x] + rest)[1..] == rest;
      } else {
        assert Pick(cols, vals) == rest;
      }
    }
  }

  /** The given values among `vals`, in order. */
  function GivenValues(vals: seq<Option<SqlValue>>): seq<SqlValue> {
    if vals == [] then [] else (if vals[0].Some? then [vals[0].value] else []) + GivenValues(vals[1..])
  }

  /**
   * `if (fields.length > 0) { args.push(id); db.execute("UPDATE t SET f1 = ?, ... WHERE id = ?", args) }`:
   * no statement at all when nothing is set; otherwise the row id is the last argument.
   */
  function UpdateStatement(table: string, assigns: seq<Assignment>, id: int): (r: Option<Statement>)
    ensures r.None? <==> assigns == []
    ensures r.Some? ==> |r.value.args| == |assigns| + 1 && r.value.args[|assigns|] == Num(id)
    ensures r.Some? ==> forall k :: 0 <= k < |assigns| ==> r.value.args[k] == assigns[k].value
  {
    if assigns == [] then None
    else Some(Statement("UPDATE " + table + " SET " + Join(SetClauses(assigns), ", ") + " WHERE id = ?",
                        Values(assigns) + [Num(id)]))
  }

  /** The common tail of the update builders: the id goes last, and nothing is issued for an empty update. */
  method IssueUpdate(table: string, fields: seq<string>, args: seq<SqlValue>, ghost assigns: seq<Assignment>, id: int)
    returns (st: Option<Statement>)
    requires fields == SetClauses(assigns) && args == Values(assigns)
    ensures st == UpdateStatement(table, assigns, id)
  {
    if |fields| > 0 {
      var args' := args + [Num(id)];
      st := Some(Statement("UPDATE " + table + " SET " + Join(fields, ", ") + " WHERE id = ?", args'));
    } else {
      st := None;
    }
  }

  /** One `a.column = ?` condition of a listing query. */
  function Condition(a: Assignment): string {
    "a." + ColumnName(a.column) + " = ?"
  }

  function Conditions(assigns: seq<Assignment>): (r: seq<string>)
    ensures |r| == |assigns|
    ensures forall k :: 0 <= k < |r| ==> r[k] == Condition(assigns[k])
  {
    if assigns == [] then [] else [Condition(assigns[0])] + Conditions(assigns[1..])
  }

  /**
   * `if (value) { conditions.push('a.column = ?'); args.push(value) }`: one step
   * of a listing query's condition builder.
   */
  method PushConditionIfGiven(conditions: seq<string>, args: seq<SqlValue>, ghost assigns: seq<Assignment>,
                              column: Column, v: Option<SqlValue>)
    returns (conditions': seq<string>, args': seq<SqlValue>)
    requires conditions == Conditions(assigns) && args == Values(assigns)
    ensures conditions' == Conditions(assigns + Field(column, v)) && args' == Values(assigns + Field(column, v))
  {
    if v.Some? {
      var a := Assignment(column, v.value);
      assert (assigns + [a])[..|assigns|] == assigns;
      conditions' := conditions + ["a." + ColumnName(column) + " = ?"];
      args' := args + [v.value];
      assert conditions' == Conditions(assigns + [a]);
    } else {
      assert assigns + [] == assigns;
      conditions', args' := conditions, args;
    }
  }

  /**
   * A listing query: the fixed `head`, then ` WHERE c1 AND c2 ...` only when some
   * condition is set, then the fixed `tail`; the arguments are the conditions' values.
   */
  function SelectStatement(head: string, assigns: seq<Assignment>, tail: string): (st: Statement)
    ensures st.args == Values(assigns)
    ensures assigns == [] ==> st.sql == head + tail
  {
    Statement(head + (if assigns == [] then "" else " WHERE " + Join(Conditions(assigns), " AND ")) + tail,
              Values(assigns))
  }

  /** The common tail of the listing builders. */
  method IssueSelect(head: string, conditions: seq<string>, args: seq<SqlValue>, ghost assigns: seq<Assignment>,
                     tail: string)
    returns (st: Statement)
    requires conditions == Conditions(assigns) && args == Values(assigns)
    ensures st == SelectStatement(head, assigns, tail)
  {
    var sql := head;
    if |conditions| > 0 {
      var clause := " WHERE " + Join(conditions, " AND ");
      assert assigns != [];
      sql := sql + clause;
      assert sql + tail == head + clause + tail;
    } else {
      assert assigns == [];
      assert sql + "" == sql;
    }
    sql := sql + tail;
    st := Statement(sql, args);
  }

  function ColumnNames(cols: seq<Column>): (r: seq<string>)
    ensures |r| == |cols| && forall k :: 0 <= k < |cols| ==> r[k] == ColumnName(cols[k])
  {
    if cols == [] then [] else [ColumnName(cols[0])] + ColumnNames(cols[1..])
  }

  /** `n` placeholders. */
  function Marks(n: nat): (r: seq<string>)
    ensures |r| == n && forall k :: 0 <= k < n ==> r[k] == "?"
  {
    if n == 0 then [] else Marks(n - 1) + ["?"]
  }

  /** `INSERT INTO table (c1, ..., cn) VALUES (?, ..., ?)` binding the assignments' values in order. */
  function InsertStatement(table: string, assigns: seq<Assignment>): Statement {
    Statement("INSERT INTO " + table + " (" + Join(ColumnNames(Columns(assigns)), ", ") + ") VALUES (" +
              Join(Marks(|assigns|), ", ") + ")",
              Values(assigns))
  }

  /** No column name holds a `?`. */
  lemma ColumnNamePlain(c: Column)
    ensures Occurrences('?', ColumnName(c)) == 0
  {
    NoOccurrences('?', ColumnName(c));
  }

  /** Each `column = ?` clause holds one placeholder, so their join holds one per clause. */
  lemma ClausePlaceholders(assigns: seq<Assignment>)
    ensures Occurrences('?', Join(SetClauses(assigns), ", ")) == |assigns|
  {
    SeparatorFree();
    var clauses := SetClauses(assigns);
    forall k | 0 <= k < |clauses| ensures Occurrences('?', clauses[k]) == 1 {
      ColumnNamePlain(assigns[k].column);
      ClauseHoldsOne(ColumnName(assigns[k].column));
    }
    OccurrencesJoin('?', clauses, ", ");
  }

  /** Fixed text around a table name and a clause list adds only the placeholders of the fixed text. */
  lemma {:induction false} WrappedPlaceholders(head: string, table: string, mid: string, clauses: string, tail: string)
    requires Occurrences('?', head) == 0 && Occurrences('?', mid) == 0 && Occurrences('?', tail) == 1
    ensures Occurrences('?', head + table + mid + clauses + tail) ==
            Occurrences('?', table) + Occurrences('?', clauses) + 1
  {
    OccurrencesAppend('?', head, table);
    OccurrencesAppend('?', head + table, mid);
    OccurrencesAppend('?', head + table + mid, clauses);
    OccurrencesAppend('?', head + table + mid + clauses, tail);
  }

  /** An UPDATE binds exactly one argument per placeholder in its text. */
  lemma UpdatePlaceholders(table: string, assigns: seq<Assignment>, id: int)
    requires Occurrences('?', table) == 0 && assigns != []
    ensures Occurrences('?', UpdateStatement(table, assigns, id).value.sql) == |UpdateStatement(table, assigns, id).value.args|
  {
    var clauses := Join(SetClauses(assigns), ", ");
    var st := UpdateStatement(table, assigns, id).value;
    assert st.sql == "UPDATE " + table + " SET " + clauses + " WHERE id = ?";
    ClausePlaceholders(assigns);
    WherePlaceholder();
    UpdateKeywordFree();
    SetKeywordFree();
    WrappedPlaceholders("UPDATE ", table, " SET ", clauses, " WHERE id = ?");
  }
}
