/** The category builders of lib/categories.ts: `createCategory` and `updateCategory`. */
module Categories {
  import opened Wrappers
  import opened Text
  import opened Ranking
  import opened Sql

  /** The row `createCategory` inserts: the name trimmed, the colour as given, an empty or missing icon as NULL. */
  function CreateAssignments(name: string, color: string, icon: Option<string>): (r: seq<Assignment>)
    ensures Columns(r) == [Name, Color, Icon]
  {
    [Assignment(Name, Str(Trim(name))), Assignment(Color, Str(color)), Assignment(Icon, OrNull(icon))]
  }

  /** `createCategory(name, color, icon)`. */
  method CreateCategory(name: string, color: string, icon: Option<string>) returns (st: Statement)
    ensures st == InsertStatement("categories", CreateAssignments(name, color, icon))
    ensures st.args == [Str(Trim(name)), Str(color), OrNull(icon)]
  {
    st := InsertStatement("categories", CreateAssignments(name, color, icon));
  }

  /** `data` of `updateCategory`; only the icon can also be an explicit `null`. */
  datatype UpdateRequest = UpdateRequest(name: Option<string>, color: Option<string>, icon: Patch<string>)

  const UpdateColumns: seq<Column> := [Name, Color, Icon]

  lemma UpdateColumnsDistinct()
    ensures Distinct(UpdateColumns)
  {
    DistinctCons(Icon, []);
    DistinctCons(Color, [Icon]);
    DistinctCons(Name, [Color, Icon]);
  }

  function UpdateValues(req: UpdateRequest): (v: seq<Option<SqlValue>>)
    ensures |v| == 3
  {
    [if req.name.Some? then Some(Str(Trim(req.name.value))) else None,
     if req.color.Some? then Some(Str(req.color.value)) else None,
     if req.icon.Given() then Some(PatchOrNull(req.icon)) else None]
  }

  /** The fields of an update: the list the three `if` branches push. */
  function UpdateAssignments(req: UpdateRequest): (r: seq<Assignment>)
    ensures r == Pick(UpdateColumns, UpdateValues(req))
  {
    var v := UpdateValues(req);
    Pick3(UpdateColumns, v);
    Field(Name, v[0]) + Field(Color, v[1]) + Field(Icon, v[2])
  }

  /**
   * An update sets the given fields in the order name, color, icon, each bound
   * to its value (the name trimmed, an empty icon as NULL), and is empty
   * exactly when no field is given.
   */
  lemma UpdateAssignmentsSpec(req: UpdateRequest)
    ensures IsSubsequence(Columns(UpdateAssignments(req)), UpdateColumns)
    ensures forall i :: 0 <= i < 3 ==> ValueOf(UpdateAssignments(req), UpdateColumns[i]) == UpdateValues(req)[i]
    ensures UpdateAssignments(req) == [] <==> req.name.None? && req.color.None? && !req.icon.Given()
  {
    var v := UpdateValues(req);
    Pick3(UpdateColumns, v);
    UpdateColumnsDistinct();
    PickSpec(UpdateColumns, v);
  }

  /** `updateCategory(id, data)`: the UPDATE of the given fields, or no statement when none is given. */
  method UpdateCategory(id: int, req: UpdateRequest) returns (update: Option<Statement>)
    ensures update == UpdateStatement("categories", UpdateAssignments(req), id)
  {
    var fields: seq<string> := [];
    var args: seq<SqlValue> := [];
    var v := UpdateValues(req);
    fields, args := PushIfGiven(fields, args, [], Name, v[0]);
    ghost var assigns := Field(Name, v[0]);
    assert [] + assigns == assigns;
    fields, args := PushIfGiven(fields, args, assigns, Color, v[1]);
    assigns := assigns + Field(Color, v[1]);
    fields, args := PushIfGiven(fields, args, assigns, Icon, v[2]);
    assigns := assigns + Field(Icon, v[2]);
    update := IssueUpdate("categories", fields, args, assigns, id);
  }
}
