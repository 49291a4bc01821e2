/**
 * The rich suggestion engine of lib/suggestions.ts.
 *
 * `Evaluate` is the per-activity rule set of `getSuggestedActivities`: `None`
 * when the activity is skipped, otherwise its score and reasons. The method
 * `ScoreActivity` is the loop body as written (running score, pushed reasons,
 * the slot loop with its `break`) and is proved to compute `Evaluate`;
 * `GetSuggestedActivities` is the outer loop, the stable descending sort and
 * the slice, proved to compute `SuggestedActivities`. The lemmas state what
 * the rules mean: which activities can appear, what each rule adds, and how
 * the result is ordered and bounded.
 */
module Suggestions {
  import opened Wrappers
  import opened Text
  import opened Clock
  import opened Ranking
  import opened Records
  import Contexts

  /** A scored activity and its reasons joined for display. */
  datatype Suggestion = Suggestion(activity: Activity, score: int, reason: string)

  /** The outcome of the rules for one activity that is not skipped. */
  datatype Scored = Scored(score: int, reasons: seq<string>)

  const MsPerHour: int := 60 * 60 * 1000

  /** The reason texts the rules push. */
  const ContextPrefix: string := "Contexto: "
  const SlotPrefix: string := "Horario: "
  const MustDo: string := "Must Do"
  const ShouldDo: string := "Should Do"
  const PendingTodayReason: string := "Pendiente hoy"
  const HighEnergyReason: string := "Energía alta - ideal ahora"
  const MediumEnergyReason: string := "Energía media - ideal ahora"
  const LowEnergyReason: string := "Energía baja - ideal ahora"
  const RecentReason: string := "Completada recientemente"

  /** What `reasons.join(' • ')` puts between two reasons. */
  const ReasonSeparator: string := " • "

  /** `contexts.map((c) => c.id)`. */
  function Ids(cs: seq<Contexts.Context>): (r: seq<int>)
    ensures |r| == |cs| && forall k :: 0 <= k < |cs| ==> r[k] == cs[k].id
  {
    if cs == [] then [] else [cs[0].id] + Ids(cs[1..])
  }

  /** The ids of the contexts active at `now`. */
  function ActiveIds(allContexts: seq<Contexts.Context>, now: Instant): (r: seq<int>)
    ensures |r| <= |allContexts|
    ensures forall c :: c in allContexts && Contexts.IsActive(c, now) ==> c.id in r
    ensures forall k :: 0 <= k < |r| ==> exists c :: c in allContexts && Contexts.IsActive(c, now) && c.id == r[k]
  {
    var active := Contexts.GetActiveContexts(allContexts, now);
    var r := Ids(active);
    assert forall c :: c in allContexts && Contexts.IsActive(c, now) ==> c.id in r by {
      forall c | c in allContexts && Contexts.IsActive(c, now) ensures c.id in r {
        var k :| 0 <= k < |active| && active[k] == c;
        assert r[k] == c.id;
      }
    }
    assert forall k :: 0 <= k < |r| ==> active[k] in active;
    r
  }

  /** Index of the first of `cs` whose id is active: `cs.find((c) => ids.includes(c.id))`. */
  function FirstActive(cs: seq<Contexts.Context>, ids: seq<int>): (r: Option<nat>)
    ensures r.None? <==> forall k :: 0 <= k < |cs| ==> cs[k].id !in ids
    ensures r.Some? ==> r.value < |cs| && cs[r.value].id in ids && forall k :: 0 <= k < r.value ==> cs[k].id !in ids
  {
    if cs == [] then None
    else if cs[0].id in ids then Some(0)
    else
      var r := FirstActive(cs[1..], ids);
      if r.Some? then Some(r.value + 1) else None
  }

  /** The slot's day test: no day (null or empty) or today's code. */
  predicate DayMatches(s: TimeSlot, now: Instant)
    ensures s.dayOfWeek.None? || s.dayOfWeek == Some("") ==> DayMatches(s, now)
    ensures s.dayOfWeek == Some(DayName(now.weekday)) ==> DayMatches(s, now)
    ensures s.dayOfWeek.Some? && s.dayOfWeek.value != "" && s.dayOfWeek.value != DayName(now.weekday) ==> !DayMatches(s, now)
  {
    !Contexts.Present(s.dayOfWeek) || s.dayOfWeek.value == DayName(now.weekday)
  }

  /** The slot test of the scorer: `currentTime >= start && currentTime <= end`, with no midnight crossing. */
  predicate SlotMatches(s: TimeSlot, now: Instant)
    ensures SlotMatches(s, now) ==> DayMatches(s, now)
    ensures DayMatches(s, now) && !LexLt(s.timeEnd, s.timeStart) && FormatHHMM(now.minute) in {s.timeStart, s.timeEnd} ==>
              SlotMatches(s, now)
  {
    var t := FormatHHMM(now.minute);
    LexLtIrreflexive(t);
    DayMatches(s, now) && !LexLt(t, s.timeStart) && !LexLt(s.timeEnd, t)
  }

  /** Index of the first slot, in declared order, that matches now. */
  function FirstSlot(slots: seq<TimeSlot>, now: Instant): (r: Option<nat>)
    ensures r.None? <==> forall k :: 0 <= k < |slots| ==> !SlotMatches(slots[k], now)
    ensures r.Some? ==> r.value < |slots| && SlotMatches(slots[r.value], now) &&
                        forall k :: 0 <= k < r.value ==> !SlotMatches(slots[k], now)
  {
    if slots == [] then None
    else if SlotMatches(slots[0], now) then Some(0)
    else
      var r := FirstSlot(slots[1..], now);
      if r.Some? then Some(r.value + 1) else None
  }

  /** The priority bonus: 40, 25 or 10, one value per priority. */
  function PriorityPoints(p: Priority): (r: int)
    ensures 10 <= r <= 40
    ensures r == 40 <==> p == Urgent
    ensures r == 25 <==> p == Important
    ensures r == 10 <==> p == Someday
  {
    match p
    case Urgent => 40
    case Important => 25
    case Someday => 10
  }

  /** The priority reason: "Must Do" or "Should Do", and none for Someday. */
  function PriorityReasons(p: Priority): (r: seq<string>)
    ensures |r| <= 1
    ensures r == [] <==> p == Someday
    ensures r == [MustDo] <==> p == Urgent
    ensures r == [ShouldDo] <==> p == Important
  {
    match p
    case Urgent => [MustDo]
    case Important => [ShouldDo]
    case Someday => []
  }

  /** A daily recurring activity with no completion on today's date. */
  predicate PendingToday(a: Activity, now: Instant)
    ensures PendingToday(a, now) ==> a.isRecurring && a.recurrence == Some(Daily)
    ensures a.lastCompleted.Some? && a.lastCompleted.value.dateKey == now.dateKey ==> !PendingToday(a, now)
    ensures a.isRecurring && a.recurrence == Some(Daily) && a.lastCompleted.None? ==> PendingToday(a, now)
  {
    a.isRecurring && a.recurrence == Some(Daily) &&
    (a.lastCompleted.None? || a.lastCompleted.value.dateKey != now.dateKey)
  }

  /** The reason of the energy bonus that fires for this level at this hour, if one does. */
  function EnergyBonus(e: Option<EnergyLevel>, hour: int): (r: Option<string>)
    ensures r.Some? ==> e.Some? && hour >= 6
    ensures r == Some(HighEnergyReason) <==> e == Some(High) && 6 <= hour < 12
    ensures r == Some(MediumEnergyReason) <==> e == Some(Medium) && 12 <= hour < 18
    ensures r == Some(LowEnergyReason) <==> e == Some(Low) && hour >= 18
  {
    if e.None? then None
    else if 6 <= hour < 12 && e.value == High then Some(HighEnergyReason)
    else if 12 <= hour < 18 && e.value == Medium then Some(MediumEnergyReason)
    else if hour >= 18 && e.value == Low then Some(LowEnergyReason)
    else None
  }

  /** The recency penalty: −30 under two hours since the last completion, −15 under six. */
  function RecencyPoints(last: Option<Completion>, now: Instant): (p: int)
    ensures -30 <= p <= 0
  {
    if last.None? then 0
    else
      var diffMs := now.epochMs - last.value.epochMs;
      if diffMs < 2 * MsPerHour then -30 else if diffMs < 6 * MsPerHour then -15 else 0
  }

  /** The recency reason: "Completada recientemente" exactly when the full penalty applies. */
  function RecencyReasons(last: Option<Completion>, now: Instant): (r: seq<string>)
    ensures |r| <= 1
    ensures r != [] ==> r == [RecentReason]
    ensures r != [] <==> RecencyPoints(last, now) == -30
  {
    if last.Some? && now.epochMs - last.value.epochMs < 2 * MsPerHour then [RecentReason] else []
  }

  /**
   * The rules for one activity. An activity is scored exactly when one of its
   * contexts is active or one of its slots matches; every other activity,
   * including one with neither contexts nor slots, is skipped rather than
   * scored 0. A scored activity's score lies in [30, 185].
   */
  function Evaluate(a: Activity, ids: seq<int>, now: Instant): (r: Option<Scored>)
    ensures r.Some? <==> (exists k :: 0 <= k < |a.contexts| && a.contexts[k].id in ids) ||
                         (exists k :: 0 <= k < |a.timeSlots| && SlotMatches(a.timeSlots[k], now))
    ensures r.Some? ==> 30 <= r.value.score <= 185
  {
    if a.contexts == [] && a.timeSlots == [] then None
    else
      var ctx := FirstActive(a.contexts, ids);
      var slot := FirstSlot(a.timeSlots, now);
      if ctx.None? && slot.None? then None
      else Some(Rules(a, ctx, slot, ids, now))
  }

  /** The score and reasons of an activity that is not skipped, given its first active context and first matching slot. */
  function Rules(a: Activity, ctx: Option<nat>, slot: Option<nat>, ids: seq<int>, now: Instant): (r: Scored)
    requires ctx == FirstActive(a.contexts, ids) && slot == FirstSlot(a.timeSlots, now)
    requires ctx.Some? || slot.Some?
    ensures 30 <= r.score <= 185
  {
    var energy := EnergyBonus(a.energyLevel, Hour(now));
    var points := (if ctx.Some? then 50 else 0) + (if slot.Some? then 60 else 0) + PriorityPoints(a.priority) +
                  (if PendingToday(a, now) then 20 else 0) + (if energy.Some? then 15 else 0) +
                  RecencyPoints(a.lastCompleted, now);
    var reasons := (if ctx.Some? then [ContextPrefix + a.contexts[ctx.value].labelText] else []) +
                   (if slot.Some? then [SlotPrefix + a.timeSlots[slot.value].timeStart + "-" +
                                        a.timeSlots[slot.value].timeEnd] else []) +
                   PriorityReasons(a.priority) + (if PendingToday(a, now) then [PendingTodayReason] else []) +
                   (if energy.Some? then [energy.value] else []) + RecencyReasons(a.lastCompleted, now);
    Scored(points, reasons)
  }

  /** The body of the `for (const activity of allActivities)` loop, as written. */
  method ScoreActivity(a: Activity, activeContextIds: seq<int>, now: Instant) returns (r: Option<Scored>)
    ensures r == Evaluate(a, activeContextIds, now)
  {
    if a.contexts == [] && a.timeSlots == [] {
      assert Evaluate(a, activeContextIds, now) == None;
      return None;
    }
    var score, reasons, matchesContext, matchesTimeSlot := MatchRules(a, activeContextIds, now);
    ghost var ctx, slot := FirstActive(a.contexts, activeContextIds), FirstSlot(a.timeSlots, now);

    if !matchesContext && !matchesTimeSlot {
      assert Evaluate(a, activeContextIds, now) == None;
      return None;
    }

    score, reasons := PriorityRule(score, reasons, a.priority);
    score, reasons := DailyRule(score, reasons, a, now);
    score, reasons := EnergyRule(score, reasons, a.energyLevel, now);
    score, reasons := RecencyRule(score, reasons, a.lastCompleted, now);

    assert Evaluate(a, activeContextIds, now) == Some(Rules(a, ctx, slot, activeContextIds, now));
    r := Some(Scored(score, reasons));
  }

  /**
   * The two matching rules: +50 and the label of the first active context, then
   * +60 and the bounds of the first matching slot, found by a loop that stops at
   * the first match.
   */
  method MatchRules(a: Activity, activeContextIds: seq<int>, now: Instant)
    returns (score: int, reasons: seq<string>, matchesContext: bool, matchesTimeSlot: bool)
    ensures matchesContext <==> FirstActive(a.contexts, activeContextIds).Some?
    ensures matchesTimeSlot <==> FirstSlot(a.timeSlots, now).Some?
    ensures score == (if matchesContext then 50 else 0) + (if matchesTimeSlot then 60 else 0)
    ensures var ctx, slot := FirstActive(a.contexts, activeContextIds), FirstSlot(a.timeSlots, now);
            reasons == (if ctx.Some? then [ContextPrefix + a.contexts[ctx.value].labelText] else []) +
                       (if slot.Some? then [SlotPrefix + a.timeSlots[slot.value].timeStart + "-" +
                                            a.timeSlots[slot.value].timeEnd] else [])
  {
    var currentTime := FormatHHMM(now.minute);
    var currentDayName := DayName(now.weekday);
    score := 0;
    reasons := [];

    matchesContext := false;
    if a.contexts != [] {
      var matched := FirstActive(a.contexts, activeContextIds);
      matchesContext := matched.Some?;
      if matchesContext {
        score := score + 50;
        reasons := reasons + [ContextPrefix + a.contexts[matched.value].labelText];
      }
    }
    ghost var ctxReasons := reasons;

    matchesTimeSlot := false;
    var k := 0;
    while k < |a.timeSlots|
      invariant 0 <= k <= |a.timeSlots|
      invariant !matchesTimeSlot && reasons == ctxReasons && score == (if matchesContext then 50 else 0)
      invariant forall j :: 0 <= j < k ==> !SlotMatches(a.timeSlots[j], now)
    {
      var slot := a.timeSlots[k];
      var dayMatches := !Contexts.Present(slot.dayOfWeek) || slot.dayOfWeek.value == currentDayName;
      var timeMatches := !LexLt(currentTime, slot.timeStart) && !LexLt(slot.timeEnd, currentTime);
      if dayMatches && timeMatches {
        matchesTimeSlot := true;
        score := score + 60;
        reasons := reasons + [SlotPrefix + slot.timeStart + "-" + slot.timeEnd];
        assert FirstSlot(a.timeSlots, now) == Some(k);
        break;
      }
      k := k + 1;
    }
  }

  /** The priority bonus and its reason, pushed onto the running score and reasons. */
  method PriorityRule(score: int, reasons: seq<string>, p: Priority) returns (score': int, reasons': seq<string>)
    ensures score' == score + PriorityPoints(p) && reasons' == reasons + PriorityReasons(p)
  {
    score', reasons' := score + PriorityPoints(p), reasons;
    if p == Urgent {
      reasons' := reasons' + [MustDo];
    } else if p == Important {
      reasons' := reasons' + [ShouldDo];
    }
  }

  /** The +20 bonus of a daily activity not completed today. */
  method DailyRule(score: int, reasons: seq<string>, a: Activity, now: Instant) returns (score': int, reasons': seq<string>)
    ensures score' == score + (if PendingToday(a, now) then 20 else 0)
    ensures reasons' == reasons + (if PendingToday(a, now) then [PendingTodayReason] else [])
  {
    score', reasons' := score, reasons;
    if a.isRecurring && a.recurrence == Some(Daily) {
      if a.lastCompleted.None? || a.lastCompleted.value.dateKey != now.dateKey {
        score' := score' + 20;
        reasons' := reasons' + [PendingTodayReason];
      }
    }
  }

  /** The +15 bonus of an energy level that suits the hour. */
  method EnergyRule(score: int, reasons: seq<string>, e: Option<EnergyLevel>, now: Instant)
    returns (score': int, reasons': seq<string>)
    ensures var bonus := EnergyBonus(e, Hour(now));
            score' == score + (if bonus.Some? then 15 else 0) && reasons' == reasons + (if bonus.Some? then [bonus.value] else [])
  {
    score', reasons' := score, reasons;
    if e.Some? {
      var hour := Hour(now);
      if 6 <= hour < 12 && e.value == High {
        score' := score' + 15;
        reasons' := reasons' + [HighEnergyReason];
      } else if 12 <= hour < 18 && e.value == Medium {
        score' := score' + 15;
        reasons' := reasons' + [MediumEnergyReason];
      } else if hour >= 18 && e.value == Low {
        score' := score' + 15;
        reasons' := reasons' + [LowEnergyReason];
      }
    }
  }

  /** The penalty for a recent completion. */
  method RecencyRule(score: int, reasons: seq<string>, last: Option<Completion>, now: Instant)
    returns (score': int, reasons': seq<string>)
    ensures score' == score + RecencyPoints(last, now) && reasons' == reasons + RecencyReasons(last, now)
  {
    score', reasons' := score, reasons;
    if last.Some? {
      var diffMs := now.epochMs - last.value.epochMs;
      if diffMs < 2 * MsPerHour {
        score' := score' - 30;
        reasons' := reasons' + [RecentReason];
      } else if diffMs < 6 * MsPerHour {
        score' := score' - 15;
      }
    }
  }

  /** The suggestion an activity yields, if it is not skipped. */
  function Suggest(a: Activity, ids: seq<int>, now: Instant): (r: Option<Suggestion>)
    ensures r.Some? <==> Evaluate(a, ids, now).Some?
    ensures r.Some? ==> r.value.activity == a && r.value.score == Evaluate(a, ids, now).value.score &&
                        r.value.reason == Join(Evaluate(a, ids, now).value.reasons, ReasonSeparator)
  {
    var e := Evaluate(a, ids, now);
    if e.None? then None else Some(Suggestion(a, e.value.score, Join(e.value.reasons, ReasonSeparator)))
  }

  /** The activities of `acts` the loop does not skip with `continue`, in fetch order. */
  function Scheduled(acts: seq<Activity>, ids: seq<int>, now: Instant): (r: seq<Activity>)
    ensures |r| <= |acts| && IsSubsequence(r, acts)
    ensures forall a :: a in r <==> a in acts && Suggest(a, ids, now).Some?
  {
    Filter(acts, a => Suggest(a, ids, now).Some?)
  }

  lemma ScheduledSnoc(acts: seq<Activity>, a: Activity, ids: seq<int>, now: Instant)
    ensures Scheduled(acts + [a], ids, now) == Scheduled(acts, ids, now) + (if Suggest(a, ids, now).Some? then [a] else [])
  {
    FilterSnoc(acts, a, a => Suggest(a, ids, now).Some?);
  }

  /** `r` holds, position by position, the suggestions of the activities `acts`. */
  predicate SuggestionsOf(r: seq<Suggestion>, acts: seq<Activity>, ids: seq<int>, now: Instant) {
    |r| == |acts| && forall k :: 0 <= k < |r| ==> r[k].activity == acts[k] && Suggest(acts[k], ids, now) == Some(r[k])
  }

  lemma SuggestionsOfConcat(r: seq<Suggestion>, r': seq<Suggestion>, acts: seq<Activity>, acts': seq<Activity>,
                            ids: seq<int>, now: Instant)
    requires SuggestionsOf(r, acts, ids, now) && SuggestionsOf(r', acts', ids, now)
    ensures SuggestionsOf(r + r', acts + acts', ids, now)
  {
    forall k | 0 <= k < |r + r'|
      ensures (r + r')[k].activity == (acts + acts')[k] && Suggest((acts + acts')[k], ids, now) == Some((r + r')[k])
    {
      if k >= |r| {
        assert (r + r')[k] == r'[k - |r|] && (acts + acts')[k] == acts'[k - |r|];
      }
    }
  }

  lemma SuggestionsOfMembers(r: seq<Suggestion>, acts: seq<Activity>, ids: seq<int>, now: Instant)
    requires SuggestionsOf(r, acts, ids, now)
    ensures forall s :: s in r ==> s.activity in acts && Suggest(s.activity, ids, now) == Some(s)
    ensures forall a :: a in acts ==> Suggest(a, ids, now).Some? && Suggest(a, ids, now).value in r
  {
    forall a | a in acts ensures Suggest(a, ids, now).Some? && Suggest(a, ids, now).value in r {
      var k :| 0 <= k < |acts| && acts[k] == a;
      assert Suggest(a, ids, now) == Some(r[k]);
    }
  }

  /**
   * The suggestions pushed by the loop over `acts`: one per activity the loop
   * does not skip, in fetch order, each that activity's suggestion.
   */
  function Candidates(acts: seq<Activity>, ids: seq<int>, now: Instant): (r: seq<Suggestion>)
    ensures SuggestionsOf(r, Scheduled(acts, ids, now), ids, now)
    ensures forall s :: s in r ==> s.activity in acts && Suggest(s.activity, ids, now) == Some(s)
    ensures forall a :: a in acts && Suggest(a, ids, now).Some? ==> Suggest(a, ids, now).value in r
  {
    if acts == [] then []
    else
      var init, last := acts[..|acts| - 1], acts[|acts| - 1];
      assert acts == init + [last];
      ScheduledSnoc(init, last, ids, now);
      var c, e := Candidates(init, ids, now), Suggest(last, ids, now);
      if e.Some? then
        SuggestionsOfConcat(c, [e.value], Scheduled(init, ids, now), [last], ids, now);
        SuggestionsOfMembers(c + [e.value], Scheduled(acts, ids, now), ids, now);
        c + [e.value]
      else
        SuggestionsOfMembers(c, Scheduled(acts, ids, now), ids, now);
        c
  }

  /** One more activity appends its suggestion, if any. */
  lemma CandidatesSnoc(acts: seq<Activity>, a: Activity, ids: seq<int>, now: Instant)
    ensures Candidates(acts + [a], ids, now) ==
            Candidates(acts, ids, now) + (if Suggest(a, ids, now).Some? then [Suggest(a, ids, now).value] else [])
  {
    assert (acts + [a])[..|acts|] == acts;
  }

  /** The loop's step from the first `i` fetched activities to the first `i + 1`. */
  lemma CandidatesStep(acts: seq<Activity>, i: nat, ids: seq<int>, now: Instant)
    requires i < |acts|
    ensures Candidates(acts[..i + 1], ids, now) ==
            Candidates(acts[..i], ids, now) + (if Suggest(acts[i], ids, now).Some? then [Suggest(acts[i], ids, now).value] else [])
  {
    assert acts[..i + 1] == acts[..i] + [acts[i]];
    CandidatesSnoc(acts[..i], acts[i], ids, now);
  }

  function ScoreOf(s: Suggestion): int {
    s.score
  }

  /** `{ is_completed: false, ...(filterCategory ? { category_id: filterCategory } : {}) }`. */
  function SuggestionFilters(filterCategory: Option<int>): (f: ActivityFilters)
    ensures f.isCompleted == Some(false) && f.priority.None? && f.energyLevel.None?
    ensures f.categoryId.Some? <==> filterCategory.Some? && filterCategory.value != 0
    ensures f.categoryId.Some? ==> f.categoryId == filterCategory
  {
    ActivityFilters(if filterCategory.Some? && filterCategory.value != 0 then filterCategory else None, None, None, Some(false))
  }

  /** The suggestions for the fetched activities: scored, sorted by score (highest first, ties in fetch order), cut to `limit`. */
  function SuggestedActivities(acts: seq<Activity>, allContexts: seq<Contexts.Context>, now: Instant, limit: nat): (r: seq<Suggestion>)
    ensures |r| <= limit && |r| <= |acts|
    ensures var n := |Candidates(acts, ActiveIds(allContexts, now), now)|; |r| == if limit <= n then limit else n
    ensures SortedDesc(r, ScoreOf)
  {
    var cands := Candidates(acts, ActiveIds(allContexts, now), now);
    SortDescSpec(cands, ScoreOf);
    TakeKeepsBest(SortDesc(cands, ScoreOf), limit, ScoreOf);
    Take(SortDesc(cands, ScoreOf), limit)
  }

  /**
   * `getSuggestedActivities(limit, filterCategory)`. The data store is `fetch`;
   * the contexts it reads are `allContexts`.
   */
  method GetSuggestedActivities(fetch: ActivityFilters -> seq<Activity>, allContexts: seq<Contexts.Context>,
                                now: Instant, limit: nat, filterCategory: Option<int>) returns (r: seq<Suggestion>)
    ensures r == SuggestedActivities(fetch(SuggestionFilters(filterCategory)), allContexts, now, limit)
    ensures |r| <= limit && SortedDesc(r, ScoreOf)
  {
    var allActivities := fetch(SuggestionFilters(filterCategory));
    var activeContexts := Contexts.GetActiveContexts(allContexts, now);
    var activeContextIds := Ids(activeContexts);
    var suggestions := CollectSuggestions(allActivities, activeContextIds, now);
    r := Take(SortDesc(suggestions, ScoreOf), limit);
  }

  /** The loop of `getSuggestedActivities` over the fetched activities. */
  method CollectSuggestions(allActivities: seq<Activity>, activeContextIds: seq<int>, now: Instant)
    returns (suggestions: seq<Suggestion>)
    ensures suggestions == Candidates(allActivities, activeContextIds, now)
  {
    suggestions := [];
    var i := 0;
    while i < |allActivities|
      invariant 0 <= i <= |allActivities|
      invariant suggestions == Candidates(allActivities[..i], activeContextIds, now)
    {
      var activity := allActivities[i];
      suggestions := PushSuggestion(suggestions, activity, activeContextIds, now);
      CandidatesStep(allActivities, i, activeContextIds, now);
      i := i + 1;
    }
    assert allActivities[..i] == allActivities;
  }

  /** One pass of the loop: score the activity and push it unless it was skipped. */
  method PushSuggestion(suggestions: seq<Suggestion>, activity: Activity, activeContextIds: seq<int>, now: Instant)
    returns (suggestions': seq<Suggestion>)
    ensures suggestions' == suggestions + (if Suggest(activity, activeContextIds, now).Some?
                                           then [Suggest(activity, activeContextIds, now).value] else [])
  {
    var scored := ScoreActivity(activity, activeContextIds, now);
    suggestions' := suggestions;
    if scored.Some? {
      suggestions' := suggestions + [Suggestion(activity, scored.value.score, Join(scored.value.reasons, ReasonSeparator))];
    }
  }

  /** `getActivitiesByCategory`: the suggestions of one category, at most 20. */
  method GetActivitiesByCategory(fetch: ActivityFilters -> seq<Activity>, allContexts: seq<Contexts.Context>,
                                 now: Instant, categoryId: int) returns (r: seq<Suggestion>)
    ensures r == SuggestedActivities(fetch(SuggestionFilters(Some(categoryId))), allContexts, now, 20)
    ensures |r| <= 20
  {
    r := GetSuggestedActivities(fetch, allContexts, now, 20, Some(categoryId));
  }

  // ---------------------------------------------------------------------------
  // What the rules mean
  // ---------------------------------------------------------------------------

  /** The context reason comes first and names the first of the activity's own contexts that is active. */
  lemma ContextRule(a: Activity, ids: seq<int>, now: Instant, i: nat)
    requires i < |a.contexts| && a.contexts[i].id in ids
    requires forall j :: 0 <= j < i ==> a.contexts[j].id !in ids
    ensures Evaluate(a, ids, now).Some?
    ensures Evaluate(a, ids, now).value.reasons[0] == ContextPrefix + a.contexts[i].labelText
  {
    var ctx := FirstActive(a.contexts, ids);
    assert ctx == Some(i);
  }

  /** An active context adds exactly 50 to what the activity scores through its slots alone. */
  lemma ContextWorth50(a: Activity, ids: seq<int>, now: Instant)
    requires exists k :: 0 <= k < |a.contexts| && a.contexts[k].id in ids
    requires exists k :: 0 <= k < |a.timeSlots| && SlotMatches(a.timeSlots[k], now)
    ensures Evaluate(a.(contexts := []), ids, now).Some?
    ensures Evaluate(a, ids, now).value.score == Evaluate(a.(contexts := []), ids, now).value.score + 50
  {
    assert FirstActive([], ids) == None;
  }

  /** The slot reason names the first matching slot, right after the context reason if there is one. */
  lemma SlotRule(a: Activity, ids: seq<int>, now: Instant, i: nat)
    requires i < |a.timeSlots| && SlotMatches(a.timeSlots[i], now)
    requires forall j :: 0 <= j < i ==> !SlotMatches(a.timeSlots[j], now)
    ensures Evaluate(a, ids, now).Some?
    ensures Evaluate(a, ids, now).value.reasons[if FirstActive(a.contexts, ids).Some? then 1 else 0] ==
            SlotPrefix + a.timeSlots[i].timeStart + "-" + a.timeSlots[i].timeEnd
  {
    var slot := FirstSlot(a.timeSlots, now);
    assert slot == Some(i);
  }

  /**
   * However many slots match, they add 60 once: an activity with an active
   * context scores 60 more with matching slots than with none, and the same
   * without any match.
   */
  lemma SlotWorth60(a: Activity, ids: seq<int>, now: Instant)
    requires exists k :: 0 <= k < |a.contexts| && a.contexts[k].id in ids
    ensures Evaluate(a.(timeSlots := []), ids, now).Some?
    ensures Evaluate(a, ids, now).value.score == Evaluate(a.(timeSlots := []), ids, now).value.score +
            (if exists k :: 0 <= k < |a.timeSlots| && SlotMatches(a.timeSlots[k], now) then 60 else 0)
  {
    assert FirstSlot([], now) == None;
  }

  /** Urgent and someday versions of an activity are skipped alike, and urgent scores exactly 30 more. */
  lemma UrgentOverSomeday(a: Activity, ids: seq<int>, now: Instant)
    ensures Evaluate(a.(priority := Urgent), ids, now).Some? == Evaluate(a.(priority := Someday), ids, now).Some?
    ensures Evaluate(a.(priority := Urgent), ids, now).Some? ==>
              Evaluate(a.(priority := Urgent), ids, now).value.score ==
              Evaluate(a.(priority := Someday), ids, now).value.score + 30
  {}

  /** At most one energy bonus fires: high in the morning, medium in the afternoon, low from 18:00. */
  lemma EnergyBonusRules(e: Option<EnergyLevel>, hour: int)
    ensures EnergyBonus(e, hour).Some? <==>
              (e == Some(High) && 6 <= hour < 12) || (e == Some(Medium) && 12 <= hour < 18) || (e == Some(Low) && hour >= 18)
    ensures hour < 6 ==> EnergyBonus(e, hour).None?
  {}

  /** Before 06:00 the energy level changes nothing. */
  lemma EarlyHoursNoEnergy(a: Activity, ids: seq<int>, now: Instant)
    requires Hour(now) < 6
    ensures Evaluate(a, ids, now) == Evaluate(a.(energyLevel := None), ids, now)
  {
    EnergyBonusRules(a.energyLevel, Hour(now));
  }

  /** A daily activity last completed on another day scores 20 more than one completed today at the same moment. */
  lemma DailyPendingWorth20(a: Activity, ids: seq<int>, now: Instant, ms: int, day: int)
    requires a.isRecurring && a.recurrence == Some(Daily) && day != now.dateKey
    ensures Evaluate(a.(lastCompleted := Some(Completion(ms, day))), ids, now).Some? ==
            Evaluate(a.(lastCompleted := Some(Completion(ms, now.dateKey))), ids, now).Some?
    ensures Evaluate(a.(lastCompleted := Some(Completion(ms, day))), ids, now).Some? ==>
              Evaluate(a.(lastCompleted := Some(Completion(ms, day))), ids, now).value.score ==
              Evaluate(a.(lastCompleted := Some(Completion(ms, now.dateKey))), ids, now).value.score + 20
  {}

  /**
   * The recency thresholds: under two hours since completion costs 30 and is
   * the only case with a reason; two to under six hours costs 15; six hours or
   * more, or no completion, costs nothing.
   */
  lemma RecencyRuleMeaning(last: Option<Completion>, now: Instant)
    ensures last.None? ==> RecencyPoints(last, now) == 0 && RecencyReasons(last, now) == []
    ensures last.Some? ==>
              var elapsed := now.epochMs - last.value.epochMs;
              (elapsed < 2 * MsPerHour ==> RecencyPoints(last, now) == -30 && RecencyReasons(last, now) == [RecentReason]) &&
              (2 * MsPerHour <= elapsed < 6 * MsPerHour ==> RecencyPoints(last, now) == -15 && RecencyReasons(last, now) == []) &&
              (6 * MsPerHour <= elapsed ==> RecencyPoints(last, now) == 0 && RecencyReasons(last, now) == [])
  {}

  /** A more recent completion is never penalised less. */
  lemma RecencyMonotone(earlier: Completion, later: Completion, now: Instant)
    requires earlier.epochMs <= later.epochMs
    ensures RecencyPoints(Some(later), now) <= RecencyPoints(Some(earlier), now)
  {}

  /** On well-formed bounds the scorer's slot test is the inclusive range `start <= now <= end`. */
  lemma SlotMatchIsRange(s: TimeSlot, now: Instant)
    requires WellFormed(s.timeStart) && WellFormed(s.timeEnd)
    ensures SlotMatches(s, now) <==> DayMatches(s, now) && Minutes(s.timeStart) <= now.minute <= Minutes(s.timeEnd)
  {
    LexLtIsNumeric(FormatHHMM(now.minute), s.timeStart);
    LexLtIsNumeric(s.timeEnd, FormatHHMM(now.minute));
  }

  /** Unlike a context window, a slot whose end is before its start never matches. */
  lemma CrossingSlotNeverMatches(s: TimeSlot, now: Instant)
    requires WellFormed(s.timeStart) && WellFormed(s.timeEnd)
    requires Minutes(s.timeEnd) < Minutes(s.timeStart)
    ensures !SlotMatches(s, now)
  {
    SlotMatchIsRange(s, now);
  }

  /**
   * The result of `getSuggestedActivities`: at most `limit` suggestions, by
   * non-increasing score, each the suggestion of a fetched activity with its
   * reasons joined by " • "; no left-out candidate outscores a kept one, and
   * when `limit` is large enough every candidate is kept.
   */
  lemma SuggestedActivitiesMeaning(acts: seq<Activity>, allContexts: seq<Contexts.Context>, now: Instant, limit: nat)
    ensures var r := SuggestedActivities(acts, allContexts, now, limit);
            var n := |Candidates(acts, ActiveIds(allContexts, now), now)|;
            |r| == (if limit <= n then limit else n) && SortedDesc(r, ScoreOf) &&
            forall s :: s in r ==> s.activity in acts && Suggest(s.activity, ActiveIds(allContexts, now), now) == Some(s)
    ensures var r := SuggestedActivities(acts, allContexts, now, limit);
            var cands := Candidates(acts, ActiveIds(allContexts, now), now);
            forall c, s :: c in cands && c !in r && s in r ==> ScoreOf(c) <= ScoreOf(s)
    ensures var r := SuggestedActivities(acts, allContexts, now, limit);
            var cands := Candidates(acts, ActiveIds(allContexts, now), now);
            forall k :: WithKey(r, ScoreOf, k) <= WithKey(cands, ScoreOf, k)
    ensures var cands := Candidates(acts, ActiveIds(allContexts, now), now);
            limit >= |cands| ==> multiset(SuggestedActivities(acts, allContexts, now, limit)) == multiset(cands)
  {
    var cands := Candidates(acts, ActiveIds(allContexts, now), now);
    SortDescSpec(cands, ScoreOf);
    TakeKeepsBest(SortDesc(cands, ScoreOf), limit, ScoreOf);
    TopByKey(cands, limit, ScoreOf);
    TopKeepsFirstOfKey(cands, limit, ScoreOf);
  }

  /** An activity with neither contexts nor time slots never appears among the suggestions. */
  lemma UnscheduledNeverSuggested(acts: seq<Activity>, allContexts: seq<Contexts.Context>, now: Instant, limit: nat, a: Activity)
    requires a.contexts == [] && a.timeSlots == []
    ensures forall s :: s in SuggestedActivities(acts, allContexts, now, limit) ==> s.activity != a
  {
    SuggestedActivitiesMeaning(acts, allContexts, now, limit);
  }

  // ---------------------------------------------------------------------------
  // getActivitiesByTimeOfDay
  // ---------------------------------------------------------------------------

  datatype TimeOfDay = Morning | Afternoon | Evening | Night

  function RangeStart(t: TimeOfDay): string {
    match t
    case Morning => "06:00"
    case Afternoon => "12:00"
    case Evening => "18:00"
    case Night => "23:00"
  }

  function RangeEnd(t: TimeOfDay): string {
    match t
    case Morning => "12:00"
    case Afternoon => "18:00"
    case Evening => "23:00"
    case Night => "06:00"
  }

  /** `start >= range.start && end <= range.end`, on strings. */
  predicate WithinRange(start: string, end: string, t: TimeOfDay) {
    !LexLt(start, RangeStart(t)) && !LexLt(RangeEnd(t), end)
  }

  /** The filter callback: slots decide when there are any; otherwise contexts with both times do. */
  predicate InTimeOfDay(a: Activity, t: TimeOfDay)
    ensures a.timeSlots == [] && (forall k :: 0 <= k < |a.contexts| ==> !Contexts.HasWindow(a.contexts[k])) ==>
              !InTimeOfDay(a, t)
  {
    if a.timeSlots != [] then
      exists k :: 0 <= k < |a.timeSlots| && WithinRange(a.timeSlots[k].timeStart, a.timeSlots[k].timeEnd, t)
    else if a.contexts != [] then
      exists k :: 0 <= k < |a.contexts| && Contexts.HasWindow(a.contexts[k]) &&
                  WithinRange(a.contexts[k].timeStart.value, a.contexts[k].timeEnd.value, t)
    else false
  }

  /** `activities.filter(...)` with the callback above. */
  function KeepInTimeOfDay(acts: seq<Activity>, t: TimeOfDay): (r: seq<Activity>)
    ensures forall a :: a in r <==> a in acts && InTimeOfDay(a, t)
    ensures IsSubsequence(r, acts)
  {
    if acts == [] then []
    else
      var rest := KeepInTimeOfDay(acts[1..], t);
      assert acts == [acts[0]] + acts[1..];
      if InTimeOfDay(acts[0], t) then
        assert ([acts[0]] + rest)[1..] == rest;
        [acts[0]] + rest
      else rest
  }

  /** The filters `getActivitiesByTimeOfDay` fetches with: `{ is_completed: false }`. */
  const OpenActivities: ActivityFilters := ActivityFilters(None, None, None, Some(false))

  /** `getActivitiesByTimeOfDay(timeOfDay)`: the open activities, in fetch order, that fall in the range. */
  function ActivitiesByTimeOfDay(fetch: ActivityFilters -> seq<Activity>, t: TimeOfDay): (r: seq<Activity>)
    ensures IsSubsequence(r, fetch(OpenActivities))
    ensures forall a :: a in r <==> a in fetch(OpenActivities) && InTimeOfDay(a, t)
  {
    KeepInTimeOfDay(fetch(OpenActivities), t)
  }

  /** An activity with slots is judged by its slots alone: its contexts do not matter. */
  lemma SlotsDecideTimeOfDay(a: Activity, cs: seq<Contexts.Context>, t: TimeOfDay)
    requires a.timeSlots != []
    ensures InTimeOfDay(a.(contexts := cs), t) == InTimeOfDay(a, t)
  {}

  lemma RangeBoundsWellFormed(t: TimeOfDay)
    ensures WellFormed(RangeStart(t)) && WellFormed(RangeEnd(t))
    ensures t == Night ==> Minutes(RangeStart(t)) == 1380 && Minutes(RangeEnd(t)) == 360
  {}

  /** A slot counts as night only if it runs across midnight: from 23:00 or later to 06:00 or earlier. */
  lemma NightSlotsCross(s: TimeSlot)
    requires WellFormed(s.timeStart) && WellFormed(s.timeEnd)
    requires WithinRange(s.timeStart, s.timeEnd, Night)
    ensures Minutes(s.timeEnd) <= 360 < 1380 <= Minutes(s.timeStart)
  {
    RangeBoundsWellFormed(Night);
    LexLtIsNumeric(s.timeStart, RangeStart(Night));
    LexLtIsNumeric(RangeEnd(Night), s.timeEnd);
  }
}
