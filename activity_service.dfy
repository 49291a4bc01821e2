/**
 * The statement builders of services/activities.ts, the older activity store
 * keyed on numeric codes 1/2/3: the listing query's conditions, the INSERT of
 * `createActivity` with its defaults, and the field list and context
 * replacement of `updateActivity`.
 */
module ActivityService {
  import opened Wrappers
  import opened Text
  import opened Ranking
  import opened Sql
  import opened Links

  // ---------------------------------------------------------------------------
  // getActivities
  // ---------------------------------------------------------------------------

  /** `GetActivitiesFilters`: an absent key is `None`. */
  datatype Filters = Filters(categoryId: Option<int>, priority: Option<int>, energy: Option<int>)

  /** `getActivities({})`. */
  const NoFilters: Filters := Filters(None, None, None)

  const FilterColumns: seq<Column> := [CategoryId, Priority, Energy]

  lemma FilterColumnsDistinct()
    ensures Distinct(FilterColumns)
  {
    DistinctCons(Energy, []);
    DistinctCons(Priority, [Energy]);
    DistinctCons(CategoryId, [Priority, Energy]);
  }

  /** `if (filters?.x)`: a filter takes part only when it is present and not 0. */
  function Truthy(n: Option<int>): (v: Option<SqlValue>)
    ensures v.Some? <==> n.Some? && n.value != 0
    ensures v.Some? ==> v.value == Num(n.value)
  {
    if n.Some? && n.value != 0 then Some(Num(n.value)) else None
  }

  function FilterValues(f: Filters): (v: seq<Option<SqlValue>>)
    ensures |v| == 3
  {
    [Truthy(f.categoryId), Truthy(f.priority), Truthy(f.energy)]
  }

  /** The conditions of the listing query, as column/value pairs. */
  function FilterConditions(f: Filters): seq<Assignment> {
    var v := FilterValues(f);
    Field(CategoryId, v[0]) + Field(Priority, v[1]) + Field(Energy, v[2])
  }

  /** The query text before the WHERE clause, with its layout reduced to single spaces. */
  const ListingHead: string :=
    "SELECT a.id, a.title, a.description, a.category_id, a.energy, a.priority, a.created_at, " +
    "c.name as category_name, c.color as category_color, c.icon as category_icon, " +
    "COUNT(DISTINCT ac.completed_at) as completions_count, MAX(ac.completed_at) as last_completed " +
    "FROM activities a LEFT JOIN categories c ON a.category_id = c.id " +
    "LEFT JOIN activity_completions ac ON a.id = ac.activity_id"

  const ListingTail: string := " GROUP BY a.id ORDER BY a.priority DESC, a.created_at DESC"

  lemma FilterPick(v: seq<Option<SqlValue>>)
    requires |v| == 3
    ensures Pick(FilterColumns, v) == Field(CategoryId, v[0]) + Field(Priority, v[1]) + Field(Energy, v[2])
  {
    Pick3(FilterColumns, v);
  }

  /**
   * The conditions come in the order category_id, priority, energy, each bound
   * to its filter's value; a filter that is absent or 0 adds none, and without
   * any condition there is no WHERE clause.
   */
  lemma FilterConditionsSpec(f: Filters)
    ensures IsSubsequence(Columns(FilterConditions(f)), FilterColumns)
    ensures forall i :: 0 <= i < 3 ==> ValueOf(FilterConditions(f), FilterColumns[i]) == FilterValues(f)[i]
    ensures FilterConditions(f) == [] <==> Truthy(f.categoryId).None? && Truthy(f.priority).None? && Truthy(f.energy).None?
    ensures FilterConditions(f) == [] ==> SelectStatement(ListingHead, FilterConditions(f), ListingTail).sql == ListingHead + ListingTail
  {
    var v := FilterValues(f);
    FilterPick(v);
    FilterColumnsDistinct();
    PickSpec(FilterColumns, v);
  }

  /** `getActivities(filters)`: the listing statement, conditions pushed one filter at a time. */
  method GetActivities(f: Filters) returns (st: Statement)
    ensures st == SelectStatement(ListingHead, FilterConditions(f), ListingTail)
  {
    var conditions: seq<string> := [];
    var args: seq<SqlValue> := [];
    var v := FilterValues(f);
    conditions, args := PushConditionIfGiven(conditions, args, [], CategoryId, v[0]);
    ghost var assigns := Field(CategoryId, v[0]);
    assert [] + assigns == assigns;
    conditions, args := PushConditionIfGiven(conditions, args, assigns, Priority, v[1]);
    assigns := assigns + Field(Priority, v[1]);
    conditions, args := PushConditionIfGiven(conditions, args, assigns, Energy, v[2]);
    assigns := assigns + Field(Energy, v[2]);
    st := IssueSelect(ListingHead, conditions, args, assigns, ListingTail);
  }

  // ---------------------------------------------------------------------------
  // createActivity
  // ---------------------------------------------------------------------------

  /** `CreateActivityRequest`: `contexts` is a list of context ids. */
  datatype CreateRequest = CreateRequest(title: string, description: Option<string>, categoryId: Option<int>,
                                         energy: Option<int>, priority: Option<int>, contexts: Option<seq<int>>)

  /** `data.priority || 3`. */
  function PriorityOrDefault(p: Option<int>): (n: int)
    ensures n == 3 <==> p.None? || p.value == 0 || p.value == 3
    ensures p.Some? && p.value != 0 ==> n == p.value
  {
    if p.Some? && p.value != 0 then p.value else 3
  }

  function CreateAssignments(req: CreateRequest): seq<Assignment> {
    [Assignment(Title, Str(Trim(req.title))), Assignment(Description, OrNull(req.description)),
     Assignment(CategoryId, NumOrNull(req.categoryId)), Assignment(Energy, NumOrNull(req.energy)),
     Assignment(Priority, Num(PriorityOrDefault(req.priority)))]
  }

  /** The context links of a new activity: one per listed id, none for a missing or empty list. */
  function CreateLinkOps(req: CreateRequest, activityId: int): seq<ChildOp> {
    if req.contexts.Some? && |req.contexts.value| > 0 then AddAll(activityId, ContextItems(req.contexts.value)) else []
  }

  /**
   * `createActivity(data)`: the INSERT of the activity, with the title trimmed,
   * empty description, category and energy stored as NULL and priority 3 by
   * default, then one link per context. The new row's id is `activityId`.
   */
  method CreateActivity(req: CreateRequest, activityId: int) returns (stmts: seq<Statement>)
    ensures |stmts| >= 1 && stmts[0] == InsertStatement("activities", CreateAssignments(req))
    ensures stmts[0].args == [Str(Trim(req.title)), OrNull(req.description), NumOrNull(req.categoryId),
                              NumOrNull(req.energy), Num(PriorityOrDefault(req.priority))]
    ensures stmts[1..] == RenderAll(ContextLinks, CreateLinkOps(req, activityId))
  {
    var insert := InsertStatement("activities", CreateAssignments(req));
    stmts := [insert];
    if req.contexts.Some? && |req.contexts.value| > 0 {
      var links := InsertChildren(ContextLinks, activityId, ContextItems(req.contexts.value));
      stmts := stmts + links;
    }
  }

  /** A new activity ends up linked to exactly the listed contexts, in order. */
  lemma CreateLinksContexts(rows: seq<ChildRow>, req: CreateRequest, activityId: int)
    requires ChildrenOf(rows, activityId) == []
    ensures ChildrenOf(ApplyAll(rows, CreateLinkOps(req, activityId)), activityId) ==
            if req.contexts.Some? then ContextItems(req.contexts.value) else []
  {
    if req.contexts.Some? && |req.contexts.value| > 0 {
      AddAllAppends(rows, activityId, ContextItems(req.contexts.value), activityId);
    }
  }

  // ---------------------------------------------------------------------------
  // updateActivity
  // ---------------------------------------------------------------------------

  /** `UpdateActivityRequest`: `Unset` is an `undefined` key, `SetNull` an explicit `null`. */
  datatype UpdateRequest = UpdateRequest(title: Patch<string>, description: Patch<string>, categoryId: Patch<int>,
                                         energy: Patch<int>, priority: Option<int>, contexts: Option<seq<int>>)

  const UpdateColumns: seq<Column> := [Title, Description, CategoryId, Energy, Priority]

  lemma UpdateColumnsDistinct()
    ensures Distinct(UpdateColumns)
  {
    DistinctCons(Priority, []);
    DistinctCons(Energy, [Priority]);
    DistinctCons(CategoryId, [Energy, Priority]);
    DistinctCons(Description, [CategoryId, Energy, Priority]);
    DistinctCons(Title, [Description, CategoryId, Energy, Priority]);
  }

  /** The value each examined column receives, if its field is given. */
  function UpdateValues(req: UpdateRequest): (v: seq<Option<SqlValue>>)
    ensures |v| == 5
  {
    [if req.title.Given() then Some(TrimmedOrNull(req.title)) else None,
     if req.description.Given() then Some(PatchOrNull(req.description)) else None,
     if req.categoryId.Given() then Some(PatchNumOrNull(req.categoryId)) else None,
     if req.energy.Given() then Some(PatchNumOrNull(req.energy)) else None,
     if req.priority.Some? then Some(Num(req.priority.value)) else None]
  }

  function UpdateAssignments(req: UpdateRequest): seq<Assignment> {
    var v := UpdateValues(req);
    Field(Title, v[0]) + Field(Description, v[1]) + Field(CategoryId, v[2]) + Field(Energy, v[3]) + Field(Priority, v[4])
  }

  lemma UpdatePick(v: seq<Option<SqlValue>>)
    requires |v| == 5
    ensures Pick(UpdateColumns, v) ==
      Field(Title, v[0]) + Field(Description, v[1]) + Field(CategoryId, v[2]) + Field(Energy, v[3]) + Field(Priority, v[4])
  {
    Pick5(UpdateColumns, v);
  }

  /**
   * An update sets the given fields in the order title, description,
   * category_id, energy, priority, each bound to its normalised value, and is
   * empty exactly when no field is given.
   */
  lemma UpdateAssignmentsSpec(req: UpdateRequest)
    ensures IsSubsequence(Columns(UpdateAssignments(req)), UpdateColumns)
    ensures forall i :: 0 <= i < 5 ==> ValueOf(UpdateAssignments(req), UpdateColumns[i]) == UpdateValues(req)[i]
    ensures UpdateAssignments(req) == [] <==>
              !req.title.Given() && !req.description.Given() && !req.categoryId.Given() && !req.energy.Given() &&
              req.priority.None?
  {
    var v := UpdateValues(req);
    UpdatePick(v);
    UpdateColumnsDistinct();
    PickSpec(UpdateColumns, v);
  }

  /** The context statements of an update: a full replacement when a list is given, nothing otherwise. */
  function UpdateLinkOps(id: int, req: UpdateRequest): seq<ChildOp> {
    if req.contexts.Some? then Replace(id, ContextItems(req.contexts.value)) else []
  }

  /**
   * `updateActivity(id, data)`: the UPDATE of the given fields (none when no
   * field is given), then, if a context list is given, the DELETE of the old
   * links and one INSERT per listed context.
   */
  method UpdateActivity(id: int, req: UpdateRequest) returns (update: Option<Statement>, links: seq<Statement>)
    ensures update == UpdateStatement("activities", UpdateAssignments(req), id)
    ensures links == RenderAll(ContextLinks, UpdateLinkOps(id, req))
  {
    var fields: seq<string> := [];
    var args: seq<SqlValue> := [];
    var v := UpdateValues(req);
    fields, args := PushIfGiven(fields, args, [], Title, v[0]);
    ghost var assigns := Field(Title, v[0]);
    assert [] + assigns == assigns;
    fields, args := PushIfGiven(fields, args, assigns, Description, v[1]);
    assigns := assigns + Field(Description, v[1]);
    fields, args := PushIfGiven(fields, args, assigns, CategoryId, v[2]);
    assigns := assigns + Field(CategoryId, v[2]);
    fields, args := PushIfGiven(fields, args, assigns, Energy, v[3]);
    assigns := assigns + Field(Energy, v[3]);
    fields, args := PushIfGiven(fields, args, assigns, Priority, v[4]);
    assigns := assigns + Field(Priority, v[4]);
    update := IssueUpdate("activities", fields, args, assigns, id);

    links := [];
    if req.contexts.Some? {
      links := ReplaceChildren(ContextLinks, id, ContextItems(req.contexts.value));
    }
  }

  /**
   * After an update with a context list the activity is linked to exactly the
   * listed contexts, in the listed order; other activities keep their links.
   */
  lemma UpdateReplacesContexts(rows: seq<ChildRow>, id: int, req: UpdateRequest, other: int)
    requires req.contexts.Some?
    ensures ChildrenOf(ApplyAll(rows, UpdateLinkOps(id, req)), other) ==
            if other == id then ContextItems(req.contexts.value) else ChildrenOf(rows, other)
  {
    ReplaceExactly(rows, id, ContextItems(req.contexts.value), other);
  }
}
