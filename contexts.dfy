/**
 * Contexts (lib/contexts.ts): named weekly windows such as "work" or "evening".
 *
 * `IsActive` is the filter callback of `getActiveContexts`: a context is active
 * when today's weekday code is in its `days` list (a null list allows every
 * day) and, if both its times are set, the current "HH:MM" lies in the window,
 * a window whose end is before its start running across midnight. The create
 * and update builders produce the statement text and arguments passed to the
 * data store.
 */
module Contexts {
  import opened Wrappers
  import opened Text
  import opened Clock
  import opened Ranking
  import opened Sql
  import opened Placeholders

  /** A stored context: `days` is the parsed JSON list or null; the times are "HH:MM" or null. */
  datatype Context = Context(id: int, name: string, labelText: string, days: Option<seq<string>>,
                             timeStart: Option<string>, timeEnd: Option<string>)

  /** JavaScript truthiness of a nullable string: present and not empty. */
  predicate Present(s: Option<string>)
    ensures s.None? ==> !Present(s)
    ensures s == Some("") ==> !Present(s)
    ensures s.Some? && |s.value| > 0 ==> Present(s)
  {
    s.Some? && s.value != ""
  }

  /** The weekday rule: a null list allows every day; a list, even an empty one, allows the days it names. */
  predicate DayAllowed(c: Context, now: Instant)
    ensures c.days.None? ==> DayAllowed(c, now)
    ensures c.days == Some([]) ==> !DayAllowed(c, now)
    ensures c.days.Some? ==> (DayAllowed(c, now) <==> exists k :: 0 <= k < |c.days.value| && c.days.value[k] == DayName(now.weekday))
  {
    c.days.None? || DayName(now.weekday) in c.days.value
  }

  /** Both ends of the time window are set. */
  predicate HasWindow(c: Context)
    ensures HasWindow(c) ==> c.timeStart.Some? && c.timeEnd.Some? && c.timeStart.value != "" && c.timeEnd.value != ""
    ensures c.timeStart.None? || c.timeEnd.None? || c.timeStart == Some("") || c.timeEnd == Some("") ==> !HasWindow(c)
  {
    Present(c.timeStart) && Present(c.timeEnd)
  }

  /** The filter callback of `getActiveContexts`, comparing "HH:MM" strings with JavaScript's `<`. */
  predicate IsActive(c: Context, now: Instant)
    ensures !DayAllowed(c, now) ==> !IsActive(c, now)
    ensures DayAllowed(c, now) && !HasWindow(c) ==> IsActive(c, now)
    ensures DayAllowed(c, now) && HasWindow(c) && FormatHHMM(now.minute) in {c.timeStart.value, c.timeEnd.value} ==>
              IsActive(c, now)
  {
    var t := FormatHHMM(now.minute);
    LexLtIrreflexive(t);
    if c.days.Some? && DayName(now.weekday) !in c.days.value then false
    else if Present(c.timeStart) && Present(c.timeEnd) then
      var start, end := c.timeStart.value, c.timeEnd.value;
      if LexLt(end, start) then !LexLt(t, start) || !LexLt(end, t)
      else !LexLt(t, start) && !LexLt(end, t)
    else true
  }

  /** `allContexts.filter(...)`: the active contexts, in their stored order. */
  function GetActiveContexts(cs: seq<Context>, now: Instant): (r: seq<Context>)
    ensures |r| <= |cs|
    ensures forall c :: c in r <==> c in cs && IsActive(c, now)
    ensures IsSubsequence(r, cs)
  {
    if cs == [] then []
    else
      var rest := GetActiveContexts(cs[1..], now);
      assert cs == [cs[0]] + cs[1..];
      if IsActive(cs[0], now) then
        assert ([cs[0]] + rest)[1..] == rest;
        [cs[0]] + rest
      else rest
  }

  /**
   * What activation means: never on a day the list leaves out; on an allowed day,
   * always when the window is incomplete, and otherwise exactly when the current
   * minute lies in the window, both ends included, crossing midnight when the end
   * is before the start.
   */
  lemma IsActiveMeaning(c: Context, now: Instant)
    ensures !DayAllowed(c, now) ==> !IsActive(c, now)
    ensures DayAllowed(c, now) && !HasWindow(c) ==> IsActive(c, now)
    ensures HasWindow(c) && WellFormed(c.timeStart.value) && WellFormed(c.timeEnd.value) ==>
              (IsActive(c, now) <==>
               DayAllowed(c, now) && InWindow(Minutes(c.timeStart.value), Minutes(c.timeEnd.value), now.minute))
  {
    if HasWindow(c) && WellFormed(c.timeStart.value) && WellFormed(c.timeEnd.value) {
      var t := FormatHHMM(now.minute);
      var start, end := c.timeStart.value, c.timeEnd.value;
      LexLtIsNumeric(end, start);
      LexLtIsNumeric(t, start);
      LexLtIsNumeric(end, t);
    }
  }

  /** A window across midnight is active at its own start and end minutes, and at midnight. */
  lemma CrossingWindowEnds(c: Context, now: Instant)
    requires DayAllowed(c, now) && HasWindow(c)
    requires WellFormed(c.timeStart.value) && WellFormed(c.timeEnd.value)
    requires Minutes(c.timeEnd.value) < Minutes(c.timeStart.value)
    requires now.minute == Minutes(c.timeStart.value) || now.minute == Minutes(c.timeEnd.value) || now.minute == 0
    ensures IsActive(c, now)
  {
    IsActiveMeaning(c, now);
    CrossingWindowBounds(Minutes(c.timeStart.value), Minutes(c.timeEnd.value));
  }

  /** The partial update `updateContext` accepts: `undefined` fields are `None`/`Unset`. */
  datatype ContextUpdate = ContextUpdate(name: Option<string>, labelText: Option<string>, days: Patch<seq<string>>,
                                         timeStart: Patch<string>, timeEnd: Patch<string>)

  /** The columns `updateContext` examines, in its order. */
  const ContextColumns: seq<Column> := [Name, Label, Days, TimeStart, TimeEnd]

  lemma ContextColumnsDistinct()
    ensures Distinct(ContextColumns)
  {
    DistinctCons(TimeEnd, []);
    DistinctCons(TimeStart, [TimeEnd]);
    DistinctCons(Days, [TimeStart, TimeEnd]);
    DistinctCons(Label, [Days, TimeStart, TimeEnd]);
    DistinctCons(Name, [Label, Days, TimeStart, TimeEnd]);
  }

  /** The value each column receives: names trimmed, any `days` list as JSON, empty times as NULL. */
  function ContextValues(req: ContextUpdate): (v: seq<Option<SqlValue>>)
    ensures |v| == 5
  {
    [if req.name.Some? then Some(Str(Trim(req.name.value))) else None,
     if req.labelText.Some? then Some(Str(Trim(req.labelText.value))) else None,
     if req.days.Given() then Some(if req.days.SetTo? then JsonArray(req.days.value) else Null) else None,
     if req.timeStart.Given() then Some(PatchOrNull(req.timeStart)) else None,
     if req.timeEnd.Given() then Some(PatchOrNull(req.timeEnd)) else None]
  }

  /** The assignments of an update: the given fields, in column order, each with its normalised value. */
  function ContextAssignments(req: ContextUpdate): (r: seq<Assignment>)
    ensures r == Pick(ContextColumns, ContextValues(req))
  {
    var v := ContextValues(req);
    ContextPick(v);
    Field(Name, v[0]) + Field(Label, v[1]) + Field(Days, v[2]) + Field(TimeStart, v[3]) + Field(TimeEnd, v[4])
  }

  /**
   * An update sets only the fields the request gives, in the order name, label,
   * days, time_start, time_end, binds each to its normalised value, and is empty
   * exactly when no field is given.
   */
  lemma ContextAssignmentsSpec(req: ContextUpdate)
    ensures IsSubsequence(Columns(ContextAssignments(req)), ContextColumns)
    ensures forall i :: 0 <= i < 5 ==> ValueOf(ContextAssignments(req), ContextColumns[i]) == ContextValues(req)[i]
    ensures ContextAssignments(req) == [] <==>
              req.name.None? && req.labelText.None? && !req.days.Given() && !req.timeStart.Given() && !req.timeEnd.Given()
  {
    var v := ContextValues(req);
    ContextPick(v);
    ContextColumnsDistinct();
    PickSpec(ContextColumns, v);
  }

  /** `Pick` over the context columns, written out. */
  lemma ContextPick(v: seq<Option<SqlValue>>)
    requires |v| == 5
    ensures Pick(ContextColumns, v) ==
      Field(Name, v[0]) + Field(Label, v[1]) + Field(Days, v[2]) + Field(TimeStart, v[3]) + Field(TimeEnd, v[4])
  {
    Pick5(ContextColumns, v);
  }

  /**
   * `updateContext`: pushes `col = ?` and the normalised value for each given
   * field, then, if any field was given, appends the id and issues one UPDATE.
   */
  method UpdateContext(id: int, req: ContextUpdate) returns (st: Option<Statement>)
    ensures st == UpdateStatement("contexts", ContextAssignments(req), id)
  {
    var fields: seq<string> := [];
    var args: seq<SqlValue> := [];
    var v := ContextValues(req);
    fields, args := PushIfGiven(fields, args, [], Name, v[0]);
    ghost var assigns := Field(Name, v[0]);
    assert [] + assigns == assigns;
    fields, args := PushIfGiven(fields, args, assigns, Label, v[1]);
    assigns := assigns + Field(Label, v[1]);
    fields, args := PushIfGiven(fields, args, assigns, Days, v[2]);
    assigns := assigns + Field(Days, v[2]);
    fields, args := PushIfGiven(fields, args, assigns, TimeStart, v[3]);
    assigns := assigns + Field(TimeStart, v[3]);
    fields, args := PushIfGiven(fields, args, assigns, TimeEnd, v[4]);
    assigns := assigns + Field(TimeEnd, v[4]);
    st := IssueUpdate("contexts", fields, args, assigns, id);
  }

  /** Every field of a new context, as a full update would set it. */
  function NewContextFields(name: string, labelText: string, days: Option<seq<string>>,
                            timeStart: Option<string>, timeEnd: Option<string>): ContextUpdate {
    ContextUpdate(Some(name), Some(labelText), if days.Some? then SetTo(days.value) else SetNull,
                  if timeStart.Some? then SetTo(timeStart.value) else SetNull,
                  if timeEnd.Some? then SetTo(timeEnd.value) else SetNull)
  }

  /** `createContext`: one INSERT of the five columns, normalised as `updateContext` normalises them. */
  function CreateContext(name: string, labelText: string, days: Option<seq<string>>,
                         timeStart: Option<string>, timeEnd: Option<string>): (st: Statement)
    ensures st.args == [Str(Trim(name)), Str(Trim(labelText)), JsonOrNull(days), OrNull(timeStart), OrNull(timeEnd)]
  {
    var req := NewContextFields(name, labelText, days, timeStart, timeEnd);
    NewContextAssignments(name, labelText, days, timeStart, timeEnd);
    InsertStatement("contexts", ContextAssignments(req))
  }

  /** A new context sets all five columns. */
  lemma NewContextAssignments(name: string, labelText: string, days: Option<seq<string>>,
                              timeStart: Option<string>, timeEnd: Option<string>)
    ensures Values(ContextAssignments(NewContextFields(name, labelText, days, timeStart, timeEnd))) ==
            [Str(Trim(name)), Str(Trim(labelText)), JsonOrNull(days), OrNull(timeStart), OrNull(timeEnd)]
  {
    var v := ContextValues(NewContextFields(name, labelText, days, timeStart, timeEnd));
    assert v == [Some(Str(Trim(name))), Some(Str(Trim(labelText))), Some(JsonOrNull(days)),
                 Some(OrNull(timeStart)), Some(OrNull(timeEnd))];
    FiveFields(Name, Label, Days, TimeStart, TimeEnd,
               Str(Trim(name)), Str(Trim(labelText)), JsonOrNull(days), OrNull(timeStart), OrNull(timeEnd));
  }

  /** A non-empty context update binds exactly one argument per placeholder. */
  lemma UpdateContextPlaceholders(id: int, req: ContextUpdate)
    requires ContextAssignments(req) != []
    ensures Occurrences('?', UpdateStatement("contexts", ContextAssignments(req), id).value.sql) ==
            |UpdateStatement("contexts", ContextAssignments(req), id).value.args|
  {
    NoOccurrences('?', "contexts");
    UpdatePlaceholders("contexts", ContextAssignments(req), id);
  }
}
