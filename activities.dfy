/**
 * The statement builders and the completion toggle of lib/activities.ts, the
 * activity store the rich suggestion engine reads: the listing query's
 * conditions, `createActivity` with its defaults and its context and time-slot
 * rows, `updateActivity` with its field list and row replacement, and
 * `toggleActivity`.
 */
module Activities {
  import opened Wrappers
  import opened Text
  import opened Ranking
  import opened Sql
  import opened Links
  import opened Records

  // ---------------------------------------------------------------------------
  // getActivities
  // ---------------------------------------------------------------------------

  const FilterColumns: seq<Column> := [CategoryId, Priority, EnergyLevel, IsCompleted]

  lemma FilterColumnsDistinct()
    ensures Distinct(FilterColumns)
  {
    DistinctCons(IsCompleted, []);
    DistinctCons(EnergyLevel, [IsCompleted]);
    DistinctCons(Priority, [EnergyLevel, IsCompleted]);
    DistinctCons(CategoryId, [Priority, EnergyLevel, IsCompleted]);
  }

  /**
   * The value each condition binds, if it takes part: a category that is not 0,
   * any priority or energy level, and any `is_completed` (false binds 0).
   */
  function FilterValues(f: ActivityFilters): (v: seq<Option<SqlValue>>)
    ensures |v| == 4
  {
    [if f.categoryId.Some? && f.categoryId.value != 0 then Some(Num(f.categoryId.value)) else None,
     if f.priority.Some? then Some(Str(PriorityName(f.priority.value))) else None,
     if f.energyLevel.Some? then Some(Str(EnergyName(f.energyLevel.value))) else None,
     if f.isCompleted.Some? then Some(Flag(f.isCompleted.value)) else None]
  }

  /** The conditions of the given filters: the list the four `if` branches push. */
  function FilterConditions(f: ActivityFilters): (r: seq<Assignment>)
    ensures r == Pick(FilterColumns, FilterValues(f))
  {
    var v := FilterValues(f);
    FilterPick(v);
    Field(CategoryId, v[0]) + Field(Priority, v[1]) + Field(EnergyLevel, v[2]) + Field(IsCompleted, v[3])
  }

  /** The query text before the WHERE clause, with its layout reduced to single spaces. */
  const ListingHead: string :=
    "SELECT a.*, c.id as category_id, c.name as category_name, c.color as category_color, " +
    "c.icon as category_icon, COUNT(DISTINCT ac.completed_at) as completions_count, " +
    "MAX(ac.completed_at) as last_completed FROM activities a " +
    "LEFT JOIN categories c ON a.category_id = c.id LEFT JOIN activity_completions ac ON a.id = ac.activity_id"

  const ListingTail: string := " GROUP BY a.id ORDER BY a.priority DESC, a.created_at DESC"

  lemma FilterPick(v: seq<Option<SqlValue>>)
    requires |v| == 4
    ensures Pick(FilterColumns, v) ==
            Field(CategoryId, v[0]) + Field(Priority, v[1]) + Field(EnergyLevel, v[2]) + Field(IsCompleted, v[3])
  {
    Pick4(FilterColumns, v);
  }

  /**
   * The conditions come in the order category_id, priority, energy_level,
   * is_completed, each bound to its filter's value; category 0 adds none,
   * `is_completed: false` adds one bound to 0, and without any condition there
   * is no WHERE clause.
   */
  lemma FilterConditionsSpec(f: ActivityFilters)
    ensures IsSubsequence(Columns(FilterConditions(f)), FilterColumns)
    ensures forall i :: 0 <= i < 4 ==> ValueOf(FilterConditions(f), FilterColumns[i]) == FilterValues(f)[i]
    ensures f.categoryId == Some(0) ==> CategoryId !in Columns(FilterConditions(f))
    ensures f.isCompleted == Some(false) ==> ValueOf(FilterConditions(f), IsCompleted) == Some(Num(0))
    ensures FilterConditions(f) == [] <==>
              (f.categoryId.None? || f.categoryId.value == 0) && f.priority.None? && f.energyLevel.None? && f.isCompleted.None?
    ensures FilterConditions(f) == [] ==> SelectStatement(ListingHead, FilterConditions(f), ListingTail).sql == ListingHead + ListingTail
  {
    var v := FilterValues(f);
    FilterPick(v);
    FilterColumnsDistinct();
    PickSpec(FilterColumns, v);
    assert FilterColumns[0] == CategoryId && FilterColumns[3] == IsCompleted;
  }

  /** `getActivities(filters)`: the listing statement, conditions pushed one filter at a time. */
  method GetActivities(f: ActivityFilters) returns (st: Statement)
    ensures st == SelectStatement(ListingHead, FilterConditions(f), ListingTail)
  {
    var conditions: seq<string> := [];
    var args: seq<SqlValue> := [];
    var v := FilterValues(f);
    conditions, args := PushConditionIfGiven(conditions, args, [], CategoryId, v[0]);
    ghost var assigns := Field(CategoryId, v[0]);
    assert [] + assigns == assigns;
    conditions, args := PushConditionIfGiven(conditions, args, assigns, Priority, v[1]);
    assigns := assigns + Field(Priority, v[1]);
    conditions, args := PushConditionIfGiven(conditions, args, assigns, EnergyLevel, v[2]);
    assigns := assigns + Field(EnergyLevel, v[2]);
    conditions, args := PushConditionIfGiven(conditions, args, assigns, IsCompleted, v[3]);
    assigns := assigns + Field(IsCompleted, v[3]);
    st := IssueSelect(ListingHead, conditions, args, assigns, ListingTail);
  }

  // ---------------------------------------------------------------------------
  // createActivity
  // ---------------------------------------------------------------------------

  datatype CreateRequest = CreateRequest(title: string, description: Option<string>, categoryId: Option<int>,
                                         energyLevel: Option<EnergyLevel>, priority: Option<Priority>,
                                         contexts: Option<seq<int>>, timeSlots: Option<seq<TimeSlot>>)

  function EnergyOrNull(e: Option<EnergyLevel>): SqlValue {
    if e.Some? then Str(EnergyName(e.value)) else Null
  }

  /** The row `createActivity` inserts: every one of the five columns, once each. */
  function CreateAssignments(req: CreateRequest): (r: seq<Assignment>)
    ensures Columns(r) == [Title, Description, CategoryId, EnergyLevel, Priority]
  {
    [Assignment(Title, Str(Trim(req.title))), Assignment(Description, OrNull(req.description)),
     Assignment(CategoryId, NumOrNull(req.categoryId)), Assignment(EnergyLevel, EnergyOrNull(req.energyLevel)),
     Assignment(Priority, Str(PriorityName(if req.priority.Some? then req.priority.value else Someday)))]
  }

  /** The values the INSERT binds, in column order. */
  lemma CreateArgs(req: CreateRequest)
    ensures Values(CreateAssignments(req)) ==
              [Str(Trim(req.title)), OrNull(req.description), NumOrNull(req.categoryId), EnergyOrNull(req.energyLevel),
               Str(PriorityName(if req.priority.Some? then req.priority.value else Someday))]
  {
    var a := CreateAssignments(req);
    assert Values(a)[4] == a[4].value;
  }

  /** The row values of one time slot: `[day_of_week || null, time_start, time_end]`. */
  function SlotItem(s: TimeSlot): seq<SqlValue> {
    [OrNull(s.dayOfWeek), Str(s.timeStart), Str(s.timeEnd)]
  }

  function SlotItems(slots: seq<TimeSlot>): (r: seq<seq<SqlValue>>)
    ensures |r| == |slots| && forall k :: 0 <= k < |r| ==> r[k] == SlotItem(slots[k])
  {
    if slots == [] then [] else [SlotItem(slots[0])] + SlotItems(slots[1..])
  }

  /** The rows a list adds when it is present and not empty. */
  function NonEmptyContexts(ids: Option<seq<int>>): seq<seq<SqlValue>> {
    if ids.Some? && |ids.value| > 0 then ContextItems(ids.value) else []
  }

  function NonEmptySlots(slots: Option<seq<TimeSlot>>): seq<seq<SqlValue>> {
    if slots.Some? && |slots.value| > 0 then SlotItems(slots.value) else []
  }

  /**
   * `createActivity(data)`: the INSERT of the activity, with the title trimmed,
   * empty description, category and energy level stored as NULL and priority
   * "someday" by default; then one context link per listed context; then one
   * row per time slot. The new row's id is `activityId`.
   */
  method CreateActivity(req: CreateRequest, activityId: int)
    returns (insert: Statement, contextLinks: seq<Statement>, slotRows: seq<Statement>)
    ensures insert == InsertStatement("activities", CreateAssignments(req))
    ensures insert.args == [Str(Trim(req.title)), OrNull(req.description), NumOrNull(req.categoryId),
                            EnergyOrNull(req.energyLevel),
                            Str(PriorityName(if req.priority.Some? then req.priority.value else Someday))]
    ensures contextLinks == RenderAll(ContextLinks, AddAll(activityId, NonEmptyContexts(req.contexts)))
    ensures slotRows == RenderAll(TimeSlotRows, AddAll(activityId, NonEmptySlots(req.timeSlots)))
  {
    insert := InsertStatement("activities", CreateAssignments(req));
    CreateArgs(req);
    contextLinks := [];
    if req.contexts.Some? && |req.contexts.value| > 0 {
      contextLinks := InsertChildren(ContextLinks, activityId, ContextItems(req.contexts.value));
    }
    slotRows := [];
    if req.timeSlots.Some? && |req.timeSlots.value| > 0 {
      slotRows := InsertChildren(TimeSlotRows, activityId, SlotItems(req.timeSlots.value));
    }
  }

  /** A new activity gets exactly the listed contexts and slots, in order. */
  lemma CreatedChildren(contextRows: seq<ChildRow>, slotRows: seq<ChildRow>, req: CreateRequest, activityId: int)
    requires ChildrenOf(contextRows, activityId) == [] && ChildrenOf(slotRows, activityId) == []
    ensures ChildrenOf(ApplyAll(contextRows, AddAll(activityId, NonEmptyContexts(req.contexts))), activityId) ==
            if req.contexts.Some? then ContextItems(req.contexts.value) else []
    ensures ChildrenOf(ApplyAll(slotRows, AddAll(activityId, NonEmptySlots(req.timeSlots))), activityId) ==
            if req.timeSlots.Some? then SlotItems(req.timeSlots.value) else []
  {
    AddAllAppends(contextRows, activityId, NonEmptyContexts(req.contexts), activityId);
    AddAllAppends(slotRows, activityId, NonEmptySlots(req.timeSlots), activityId);
  }

  // ---------------------------------------------------------------------------
  // updateActivity
  // ---------------------------------------------------------------------------

  /** `UpdateActivityRequest`: `Unset` is an `undefined` key, `SetNull` an explicit `null`. */
  datatype UpdateRequest = UpdateRequest(title: Patch<string>, description: Patch<string>, categoryId: Patch<int>,
                                         energyLevel: Patch<EnergyLevel>, priority: Option<Priority>,
                                         isCompleted: Option<bool>, contexts: Option<seq<int>>,
                                         timeSlots: Option<seq<TimeSlot>>)

  const UpdateColumns: seq<Column> := [Title, Description, CategoryId, EnergyLevel, Priority, IsCompleted]

  lemma UpdateColumnsDistinct()
    ensures Distinct(UpdateColumns)
  {
    DistinctCons(IsCompleted, []);
    DistinctCons(Priority, [IsCompleted]);
    DistinctCons(EnergyLevel, [Priority, IsCompleted]);
    DistinctCons(CategoryId, [EnergyLevel, Priority, IsCompleted]);
    DistinctCons(Description, [CategoryId, EnergyLevel, Priority, IsCompleted]);
    DistinctCons(Title, [Description, CategoryId, EnergyLevel, Priority, IsCompleted]);
  }

  function UpdateValues(req: UpdateRequest): (v: seq<Option<SqlValue>>)
    ensures |v| == 6
  {
    [if req.title.Given() then Some(TrimmedOrNull(req.title)) else None,
     if req.description.Given() then Some(PatchOrNull(req.description)) else None,
     if req.categoryId.Given() then Some(PatchNumOrNull(req.categoryId)) else None,
     if req.energyLevel.Given() then Some(if req.energyLevel.SetTo? then Str(EnergyName(req.energyLevel.value)) else Null)
     else None,
     if req.priority.Some? then Some(Str(PriorityName(req.priority.value))) else None,
     if req.isCompleted.Some? then Some(Flag(req.isCompleted.value)) else None]
  }

  /** The fields of an update: the list the six `if` branches push. */
  function UpdateAssignments(req: UpdateRequest): (r: seq<Assignment>)
    ensures r == Pick(UpdateColumns, UpdateValues(req))
  {
    var v := UpdateValues(req);
    UpdatePick(v);
    Field(Title, v[0]) + Field(Description, v[1]) + Field(CategoryId, v[2]) + Field(EnergyLevel, v[3]) +
    Field(Priority, v[4]) + Field(IsCompleted, v[5])
  }

  lemma UpdatePick(v: seq<Option<SqlValue>>)
    requires |v| == 6
    ensures Pick(UpdateColumns, v) ==
      Field(Title, v[0]) + Field(Description, v[1]) + Field(CategoryId, v[2]) + Field(EnergyLevel, v[3]) +
      Field(Priority, v[4]) + Field(IsCompleted, v[5])
  {
    var c1, c2 := [Title, Description, CategoryId], [EnergyLevel, Priority, IsCompleted];
    var v1, v2 := v[..3], v[3..];
    assert c1 + c2 == UpdateColumns && v1 + v2 == v;
    PickAppend(c1, v1, c2, v2);
    Pick3(c1, v1);
    Pick3(c2, v2);
    var a, b := Field(Title, v[0]) + Field(Description, v[1]) + Field(CategoryId, v[2]),
                Field(EnergyLevel, v[3]) + Field(Priority, v[4]) + Field(IsCompleted, v[5]);
    assert Pick(UpdateColumns, v) == a + b;
  }

  /**
   * An update sets the given fields in the order title, description,
   * category_id, energy_level, priority, is_completed, each bound to its
   * normalised value, and is empty exactly when no field is given.
   */
  lemma UpdateAssignmentsSpec(req: UpdateRequest)
    ensures IsSubsequence(Columns(UpdateAssignments(req)), UpdateColumns)
    ensures forall i :: 0 <= i < 6 ==> ValueOf(UpdateAssignments(req), UpdateColumns[i]) == UpdateValues(req)[i]
    ensures UpdateAssignments(req) == [] <==>
              !req.title.Given() && !req.description.Given() && !req.categoryId.Given() && !req.energyLevel.Given() &&
              req.priority.None? && req.isCompleted.None?
  {
    var v := UpdateValues(req);
    UpdatePick(v);
    UpdateColumnsDistinct();
    PickSpec(UpdateColumns, v);
  }

  /**
   * `updateActivity(id, data)`: the UPDATE of the given fields (none when no
   * field is given); then, for a given context list, the DELETE of the old
   * links and one INSERT per context; then the same for a given slot list.
   */
  method UpdateActivity(id: int, req: UpdateRequest)
    returns (update: Option<Statement>, contextLinks: seq<Statement>, slotRows: seq<Statement>)
    ensures update == UpdateStatement("activities", UpdateAssignments(req), id)
    ensures contextLinks == if req.contexts.Some? then RenderAll(ContextLinks, Replace(id, ContextItems(req.contexts.value))) else []
    ensures slotRows == if req.timeSlots.Some? then RenderAll(TimeSlotRows, Replace(id, SlotItems(req.timeSlots.value))) else []
  {
    var fields: seq<string> := [];
    var args: seq<SqlValue> := [];
    var v := UpdateValues(req);
    fields, args := PushIfGiven(fields, args, [], Title, v[0]);
    ghost var assigns := Field(Title, v[0]);
    assert [] + assigns == assigns;
    fields, args := PushIfGiven(fields, args, assigns, Description, v[1]);
    assigns := assigns + Field(Description, v[1]);
    fields, args := PushIfGiven(fields, args, assigns, CategoryId, v[2]);
    assigns := assigns + Field(CategoryId, v[2]);
    fields, args := PushIfGiven(fields, args, assigns, EnergyLevel, v[3]);
    assigns := assigns + Field(EnergyLevel, v[3]);
    fields, args := PushIfGiven(fields, args, assigns, Priority, v[4]);
    assigns := assigns + Field(Priority, v[4]);
    fields, args := PushIfGiven(fields, args, assigns, IsCompleted, v[5]);
    assigns := assigns + Field(IsCompleted, v[5]);
    update := IssueUpdate("activities", fields, args, assigns, id);

    contextLinks := [];
    if req.contexts.Some? {
      contextLinks := ReplaceChildren(ContextLinks, id, ContextItems(req.contexts.value));
    }
    slotRows := [];
    if req.timeSlots.Some? {
      slotRows := ReplaceChildren(TimeSlotRows, id, SlotItems(req.timeSlots.value));
    }
  }

  /**
   * After an update with a slot list the activity has exactly the listed slots,
   * in the listed order; other activities keep theirs.
   */
  lemma UpdateReplacesSlots(rows: seq<ChildRow>, id: int, slots: seq<TimeSlot>, other: int)
    ensures ChildrenOf(ApplyAll(rows, Replace(id, SlotItems(slots))), other) ==
            if other == id then SlotItems(slots) else ChildrenOf(rows, other)
  {
    ReplaceExactly(rows, id, SlotItems(slots), other);
  }

  // ---------------------------------------------------------------------------
  // toggleActivity
  // ---------------------------------------------------------------------------

  /** `is_completed === 1 ? 0 : 1`. */
  function Flip(flag: int): (r: int)
    ensures r == 0 || r == 1
    ensures r == 1 <==> flag != 1
  {
    if flag == 1 then 0 else 1
  }

  datatype ToggleOutcome = NotFound | Toggled(newCompleted: int)

  /**
   * The part of the store `toggleActivity` reads and writes: each activity's
   * `is_completed` flag, and the `activity_completions` log as the sequence of
   * activity ids it records, oldest first.
   */
  class ActivityStore {
    var completed: map<int, int>
    var completions: seq<int>

    /** Every stored flag is 0 or 1. */
    predicate Valid()
      reads this
    {
      forall id :: id in completed ==> completed[id] == 0 || completed[id] == 1
    }

    /** A store over flags as the schema's 0/1 `is_completed` column holds them, with an empty log. */
    constructor (flags: map<int, int>)
      requires forall id :: id in flags ==> flags[id] == 0 || flags[id] == 1
      ensures completed == flags && completions == []
      ensures Valid()
    {
      completed := flags;
      completions := [];
    }

    /**
     * `toggleActivity(id)`: an unknown id fails with "Activity not found" and
     * changes nothing; otherwise the flag flips and, when it becomes 1, one
     * completion is logged.
     */
    method Toggle(id: int) returns (outcome: ToggleOutcome)
      modifies this
      ensures id !in old(completed) ==> outcome == NotFound && completed == old(completed) && completions == old(completions)
      ensures id in old(completed) ==>
                outcome == Toggled(Flip(old(completed)[id])) &&
                completed == old(completed)[id := Flip(old(completed)[id])] &&
                completions == old(completions) + (if Flip(old(completed)[id]) == 1 then [id] else [])
      ensures old(Valid()) ==> Valid()
    {
      if id !in completed {
        return NotFound;
      }
      var newCompleted := if completed[id] == 1 then 0 else 1;
      completed := completed[id := newCompleted];
      if newCompleted == 1 {
        completions := completions + [id];
      }
      outcome := Toggled(newCompleted);
    }
  }

  /** Flipping a 0/1 flag twice restores it, and exactly one of the two flips yields 1. */
  lemma FlipTwice(flag: int)
    requires flag == 0 || flag == 1
    ensures Flip(Flip(flag)) == flag
    ensures (if Flip(flag) == 1 then 1 else 0) + (if Flip(Flip(flag)) == 1 then 1 else 0) == 1
  {}

  /**
   * Two `toggleActivity(id)` calls on a known activity of a valid store: every
   * flag is as before, and the log has gained exactly one completion, of `id`.
   */
  method ToggleTwice(s: ActivityStore, id: int) returns (first: ToggleOutcome, second: ToggleOutcome)
    requires s.Valid() && id in s.completed
    modifies s
    ensures first.Toggled? && second.Toggled? && first.newCompleted + second.newCompleted == 1
    ensures s.completed == old(s.completed)
    ensures s.completions == old(s.completions) + [id]
    ensures s.Valid()
  {
    ghost var flags, log := s.completed, s.completions;
    FlipTwice(flags[id]);
    first := s.Toggle(id);
    second := s.Toggle(id);
    assert s.completed == flags[id := Flip(Flip(flags[id]))];
    assert s.completed == flags;
  }
}
