# whats-next suggestion engine, modelled in Dafny

whats-next is a personal activity planner. Its core decides what to suggest
doing *now*. The user defines **contexts**: named weekly windows with optional
weekdays and an optional `HH:MM` start and end, which may cross midnight. A
context is **active** when the current weekday and time fall inside it.
**Activities** are linked to contexts and to time slots, and carry a priority,
an energy level, a recurrence and a last completion. The suggestion engine
skips the activities that have nothing to do with the present moment. It
scores the rest with fixed integer rules: +50 for an active context, +60 for
a matching slot, a priority bonus, +20 for a daily activity still pending
today, +15 for an energy level that suits the hour, and −30 or −15 for a
recent completion. It then sorts the scores (highest first, stably) and keeps
the first `limit`. An older scorer keyed on the codes 1/2/3 lives beside it,
in two variants. A quick-add form proposes defaults from the hour and the
weekday. The statement builders write activities, contexts and categories to
the data store.

The project holds one module per source file, plus shared modules:

- `Wrappers`: `Option`, and `Patch` for the partial-update fields that may be
  `undefined`, `null` or given.
- `Text`: JavaScript `trim()`, `join`, and `${n}` for naturals.
- `Clock`: the instant `now` (weekday 0..6, minute of the day, milliseconds,
  calendar-date key), `HH:MM` strings, and JavaScript's string `<`.
- `Ranking`: subsequences, the stable descending sort of `Array.prototype.sort`
  with a `b.score - a.score` comparator, and `slice(0, n)`.
- `Sql`: statements as data, meaning the text and the positional arguments
  handed to `db.execute`. It also holds the `x || null` normalisations and the
  generic UPDATE, SELECT and INSERT builders, with a field list pushed step by
  step and proved equal to a declarative list of column assignments.
- `Records`: the activity, time slot and filter records the rich engine uses.
- `Links`: the `activity_contexts` and `activity_time_slots` tables. Each
  DELETE or INSERT has both a meaning on a table of rows and the text it
  renders to.

`now` is always a parameter, and the data store is a function parameter
`fetch` from filters to the activities it returns. Where the source's loops
and pushes change local state step by step, the model has methods with loops
and invariants. Each such method is proved equal to a specification function,
and the lemmas state what the specification means.

## Model

| member | source | states |
|---|---|---|
| Contexts.IsActive | lib/contexts.ts:141-159 | The callback rejects a context whose non-null `days` omits today's code, accepts one on an allowed day without both times, and on an allowed day accepts the current time when it equals either end of the window, whether or not the window crosses midnight. |
| Contexts.IsActiveMeaning | lib/contexts.ts:141-159 | A context is inactive when its non-null `days` omits today's code, and always active on an allowed day without both times. With both times well-formed, it is active iff the current minute is in the window with both ends inclusive, where a window whose end is before its start crosses midnight. |
| Contexts.Present | lib/contexts.ts:142-147 | JavaScript truthiness of a nullable string: false for null and for the empty string, true for any non-empty string. |
| Contexts.DayAllowed | lib/contexts.ts:142-144 | A null `days` list allows every day; an empty list allows none; otherwise the day is allowed iff today's code is one of the list's entries. |
| Contexts.HasWindow | lib/contexts.ts:147 | A window is checked only when both times are set and non-empty; a missing or empty time disables the check. |
| Contexts.GetActiveContexts | lib/contexts.ts:134-160 | The result holds exactly the input contexts that are active, as an order-preserving subsequence, and is no longer than the input. |
| Contexts.CrossingWindowEnds | lib/contexts.ts:150-153 | A window across midnight is active at its own start minute, at its own end minute, and at midnight. |
| Clock.CrossingWindowBounds | lib/contexts.ts:150-153 | A crossing window contains its start, its end and midnight, and no minute strictly between end and start. |
| Clock.LexLtIsNumeric | lib/contexts.ts:150-155 | On zero-padded `HH:MM` strings, JavaScript string `<` is numeric order of the minutes. |
| Clock.LexLtIrreflexive | lib/contexts.ts:152-155 | No time is string-less than itself, so `>=` holds at equal times. |
| Clock.LexLt | lib/contexts.ts:150-155 | JavaScript string `<`: a proper prefix is less than the longer string, and no string is less than one of its own prefixes. |
| Clock.LexLtAsymmetric | lib/contexts.ts:150-155 | String `<` is asymmetric: `a < b` and `b < a` never both hold. |
| Clock.FormatHHMM | lib/contexts.ts:137 | `toTimeString().substring(0, 5)` is a well-formed `HH:MM` string that reads back as the current minute. |
| Clock.FormatMinutes | lib/contexts.ts:137 | The other half of the round trip: formatting the minutes of a well-formed time gives the time back. |
| Clock.Hour | lib/suggestions.ts:105 | `getHours()` lies in 0..23 and is the hour containing the current minute. |
| Clock.DayNamesDistinct | lib/contexts.ts:136 | The weekday codes indexed by `getDay()` are pairwise distinct. |
| Clock.DigitChar | lib/contexts.ts:137 | A digit value 0..9 renders as the digit character with that value. |
| ContextService.GetActiveContexts | services/contexts.ts:86-112 | The services copy of the filter keeps exactly the contexts the lib/contexts.ts callback accepts, as an order-preserving subsequence no longer than the input. |
| ContextService.IsActive | services/contexts.ts:93-111 | The services callback accepts a context at an instant iff the lib/contexts.ts callback does. |
| ContextService.SameAsLib | services/contexts.ts:93-111 | The services copy selects exactly the contexts the lib/contexts.ts filter selects, in the same order, for every list and instant. |
| ActiveContextsHook.CalculateActiveContexts | hooks/useActiveContexts.ts:24-48 | The client-side filter keeps exactly the contexts the lib/contexts.ts callback accepts, as an order-preserving subsequence no longer than the input. |
| ActiveContextsHook.Keeps | hooks/useActiveContexts.ts:29-47 | The client callback accepts a context at an instant iff the lib/contexts.ts callback does. |
| ActiveContextsHook.SameAsServer | hooks/useActiveContexts.ts:29-47 | The client-side filter equals the server's `getActiveContexts` on the same list and instant. |
| Contexts.ContextValues | lib/contexts.ts:86-109 | Each of the five columns gets one optional value: names trimmed, any `days` list as JSON, empty times as NULL. |
| Contexts.ContextAssignments | lib/contexts.ts:86-109 | The update's field list is the one the generic builder picks over the five context columns and their optional values. |
| Contexts.ContextAssignmentsSpec | lib/contexts.ts:83-117 | The fields set come in the order name, label, days, time_start, time_end. Each column is bound to exactly its request value, with untouched columns absent, and the update is empty exactly when no field is given. |
| Contexts.ContextPick | lib/contexts.ts:86-109 | The five `if` branches of `updateContext` produce the five optional fields in order. |
| Contexts.UpdateContext | lib/contexts.ts:73-118 | The pushed field list issues no statement when empty. Otherwise it issues one UPDATE whose arguments are the assignments' values followed by the id. |
| Contexts.CreateContext | lib/contexts.ts:49-68 | The INSERT binds the trimmed name and label, the `days` list as JSON or NULL, and each time or NULL when it is missing or empty. |
| Contexts.NewContextAssignments | lib/contexts.ts:57-64 | A new context binds all five columns, normalised as an update with every field given would normalise them. |
| Contexts.UpdateContextPlaceholders | lib/contexts.ts:111-117 | A non-empty context UPDATE binds exactly one argument per `?` in its text. |
| Suggestions.Evaluate | lib/suggestions.ts:28-141 | An activity is scored exactly when one of its contexts is active or one of its slots matches. Every other activity, including one with no contexts and no slots, is skipped rather than scored 0. A scored activity's score lies in [30, 185]. |
| Suggestions.Rules | lib/suggestions.ts:46-135 | The score of a non-skipped activity, from its first active context and first matching slot, lies in [30, 185]. |
| Suggestions.ScoreActivity | lib/suggestions.ts:29-141 | The loop body as written (running score, pushed reasons, the slot loop with its `break` and the two skips) computes `Evaluate`. |
| Suggestions.MatchRules | lib/suggestions.ts:41-72 | The context flag is set iff some context is active, and the slot flag iff some slot matches. The score is 50 per flag for the context and 60 for the slot. The reasons name the first active context's label and the bounds of the first matching slot, in that order. |
| Suggestions.PriorityRule | lib/suggestions.ts:80-90 | Adds the priority's points and pushes its reason, if it has one, onto the running score and reasons. |
| Suggestions.DailyRule | lib/suggestions.ts:93-101 | Adds 20 and pushes "Pendiente hoy" exactly when the activity is daily recurring and not completed on today's date. |
| Suggestions.PendingToday | lib/suggestions.ts:93-101 | Only a daily recurring activity can be pending. One completed on today's date is not pending; one never completed is. |
| Suggestions.EnergyRule | lib/suggestions.ts:104-122 | Adds 15 and pushes the bonus reason exactly when an energy bonus fires for the level at the current hour. |
| Suggestions.EnergyBonus | lib/suggestions.ts:104-122 | A bonus needs a level and an hour from 06:00 on. The high reason fires exactly for high in [6,12), the medium reason for medium in [12,18), the low reason for low from 18 on. |
| Suggestions.RecencyRule | lib/suggestions.ts:125-135 | Adds the recency penalty and its reason, if any, onto the running score and reasons. |
| Suggestions.RecencyPoints | lib/suggestions.ts:125-135 | The recency penalty lies in [−30, 0]. |
| Suggestions.RecencyReasons | lib/suggestions.ts:125-135 | At most one recency reason, "Completada recientemente", present exactly when the full 30-point penalty applies. |
| Suggestions.RecencyRuleMeaning | lib/suggestions.ts:125-135 | Under two hours since completion costs 30 and pushes "Completada recientemente". Two to under six hours costs 15 with no reason. Six hours or more, or no completion, costs nothing. |
| Suggestions.RecencyMonotone | lib/suggestions.ts:126-134 | A more recent completion is never penalised less than an older one. |
| Suggestions.ContextRule | lib/suggestions.ts:42-53 | When context `i` is the first of the activity's contexts, in its own order, whose id is active, the activity is scored and its first reason is "Contexto: " followed by that context's label. |
| Suggestions.ContextWorth50 | lib/suggestions.ts:46-47 | With a matching slot, an active context adds exactly 50 over the same activity without contexts. |
| Suggestions.SlotRule | lib/suggestions.ts:57-72 | When slot `i` is the first matching slot in declared order, the activity is scored and the slot reason names slot `i`'s bounds, right after the context reason if there is one. |
| Suggestions.SlotWorth60 | lib/suggestions.ts:58-69 | With an active context, any number of matching slots adds 60 once, and no matching slot adds nothing. |
| Suggestions.FirstActive | lib/suggestions.ts:44-48 | `find` returns nothing iff no context id is active. Otherwise it returns the least index whose id is active. |
| Suggestions.FirstSlot | lib/suggestions.ts:58-70 | No index iff no slot matches. Otherwise the least index whose slot matches, which is where the loop breaks. |
| Suggestions.SlotMatches | lib/suggestions.ts:60-65 | A matching slot's day is null, empty or today's code. On such a day, a slot whose end is not before its start matches at the current time when it equals either bound. |
| Suggestions.DayMatches | lib/suggestions.ts:60 | A slot with a null or empty day, or with today's code, passes the day test; a slot naming another day fails it. |
| Suggestions.SlotMatchIsRange | lib/suggestions.ts:60-63 | On well-formed bounds, a slot matches iff its day is null, empty or today's code, and `start <= now <= end` holds inclusively. |
| Suggestions.CrossingSlotNeverMatches | lib/suggestions.ts:63 | Unlike a context window, a slot whose end is before its start never matches. |
| Suggestions.PriorityPoints | lib/suggestions.ts:80-85 | The priority bonus lies in [10, 40]; it is 40 exactly for urgent, 25 exactly for important and 10 exactly for someday. |
| Suggestions.PriorityReasons | lib/suggestions.ts:86-90 | At most one priority reason: "Must Do" exactly for urgent, "Should Do" exactly for important, none exactly for someday. |
| Suggestions.UrgentOverSomeday | lib/suggestions.ts:80-90 | Urgent and someday versions of an activity are skipped alike, and when scored the urgent one scores exactly 30 more. |
| Suggestions.EnergyBonusRules | lib/suggestions.ts:104-122 | A bonus fires iff the level is high in [6,12), medium in [12,18), or low from 18 on. None fires before 06:00. |
| Suggestions.EarlyHoursNoEnergy | lib/suggestions.ts:104-122 | Before 06:00 the energy level does not change the outcome at all. |
| Suggestions.DailyPendingWorth20 | lib/suggestions.ts:93-101 | A daily activity last completed on another day is scored alike with, and exactly 20 above, the same activity completed today at the same moment. |
| Suggestions.Ids | lib/suggestions.ts:24 | `map((c) => c.id)`: one id per context, in order. |
| Suggestions.ActiveIds | lib/suggestions.ts:23-24 | No more ids than stored contexts; the id of every active context is present, and every id present belongs to an active context. |
| Suggestions.Suggest | lib/suggestions.ts:137-141 | A suggestion exists iff the activity is not skipped. It carries the activity, its score and its reasons joined by " • ". |
| Suggestions.Scheduled | lib/suggestions.ts:33-77 | The activities the loop does not skip keep their fetch order and are exactly the fetched activities that get a suggestion. |
| Suggestions.ScheduledSnoc | lib/suggestions.ts:28-77 | One more fetched activity is appended to the non-skipped ones exactly when it is not skipped. |
| Suggestions.Candidates | lib/suggestions.ts:28-142 | The pushed list has one suggestion per non-skipped activity, in fetch order: its `k`-th entry is the suggestion of the `k`-th non-skipped activity. Every suggestion of a fetched activity is in it. |
| Suggestions.CandidatesSnoc | lib/suggestions.ts:137-141 | One more activity appends its suggestion, if it has one, at the end. |
| Suggestions.CandidatesStep | lib/suggestions.ts:28-142 | From the first `i` fetched activities to the first `i + 1`, the pushed list grows by the suggestion of activity `i`, if it has one. |
| Suggestions.CollectSuggestions | lib/suggestions.ts:26-142 | The `for` loop over the fetched activities pushes exactly the candidate list. |
| Suggestions.PushSuggestion | lib/suggestions.ts:137-141 | One loop pass appends the activity's suggestion exactly when it is not skipped. |
| Suggestions.SuggestionFilters | lib/suggestions.ts:17-20 | The fetch always asks for open activities, and asks for a category only when `filterCategory` is present and not 0. |
| Suggestions.GetSuggestedActivities | lib/suggestions.ts:8-146 | The outer loop, the sort and the slice compute the suggestions of the fetched activities: at most `limit` of them, by non-increasing score. |
| Suggestions.SuggestedActivities | lib/suggestions.ts:137-145 | Exactly min(limit, n) suggestions, where n is the number of non-skipped activities, and no more than there are fetched activities, by non-increasing score. |
| Suggestions.SuggestedActivitiesMeaning | lib/suggestions.ts:137-145 | Exactly min(limit, n) suggestions, n the number of non-skipped activities, by non-increasing score, each the suggestion of a fetched activity. No left-out candidate outscores a kept one. The kept suggestions of any one score are the first candidates of that score, in fetch order. With a large enough `limit` every candidate is kept. |
| Suggestions.UnscheduledNeverSuggested | lib/suggestions.ts:33-38 | An activity with neither contexts nor time slots never appears among the suggestions, whatever its other fields. |
| Suggestions.GetActivitiesByCategory | lib/suggestions.ts:187-189 | The suggestions of one category, cut at 20. |
| Suggestions.InTimeOfDay | lib/suggestions.ts:164-181 | An activity without slots, none of whose contexts has both times, never falls in a range. |
| Suggestions.KeepInTimeOfDay | lib/suggestions.ts:164-181 | The kept activities are exactly those the callback accepts, as an order-preserving subsequence. |
| Suggestions.ActivitiesByTimeOfDay | lib/suggestions.ts:151-182 | The result is a subsequence of the open activities and holds exactly those that fall in the range. |
| Suggestions.SlotsDecideTimeOfDay | lib/suggestions.ts:166-170 | An activity with slots is judged by its slots alone: changing its contexts changes nothing. |
| Suggestions.RangeBoundsWellFormed | lib/suggestions.ts:154-159 | Every range bound is well-formed, and night runs from 23:00 to 06:00. |
| Suggestions.NightSlotsCross | lib/suggestions.ts:154-168 | A well-formed slot counts as night only if it starts at 23:00 or later and ends at 06:00 or earlier, so only a slot across midnight does. |
| ServiceSuggestions.PriorityPoints | services/suggestions.ts:37 | Priority code 1 gives 40, 2 gives 25, 3 gives 10, and any other value 0. |
| ServiceSuggestions.EnergyPoints | services/suggestions.ts:42 | Energy code 1 gives 30, 2 gives 20, 3 gives 10, and a missing or other value gives 0. |
| ServiceSuggestions.Lookup | services/suggestions.ts:37 | `table[i] or 0`: an index outside the table reads 0, and an index inside it reads its entry. |
| ServiceSuggestions.HasActiveContext | services/suggestions.ts:28-30 | No match with no contexts or no active contexts; any context that is itself among the active ones makes a match. |
| ServiceSuggestions.PriorityReason | services/suggestions.ts:39 | The reason is "Prioridad: +", the decimal points, then " puntos", and its length is 19 plus the number of digits. |
| ServiceSuggestions.EnergyReason | services/suggestions.ts:44 | The reason is "Energía: +", the decimal points, then " puntos", and its length is 17 plus the number of digits. |
| ServiceSuggestions.Assess | services/suggestions.ts:20-47 | The score belongs to the given activity and lies in [0, 120], with 3 reasons when a context matches and 2 otherwise. |
| ServiceSuggestions.CalculateActivityScore | services/suggestions.ts:20-47 | The straight-line scorer computes `Assess` and keeps the score in [0, 120]. |
| ServiceSuggestions.AssessMeaning | services/suggestions.ts:24-46 | The score lies in [0, 120]: at least 50 with an active context and at most 70 without. There are 3 reasons with a match and 2 without, the first being "Coincide con contexto activo" when matched, and the last two always the priority and the energy reason. |
| ServiceSuggestions.ReasonPoints | services/suggestions.ts:37-45 | The number in "Prioridad: +N puntos" and in "Energía: +N puntos" is the decimal rendering of the points and reads back as them. |
| ServiceSuggestions.ContextWorth50 | services/suggestions.ts:28-34 | Two activities with equal priority and energy, one matched and one not, are exactly 50 apart. |
| ServiceSuggestions.ScoreAll | services/suggestions.ts:66-68 | `map` scores each activity in place, with one score per activity. |
| ServiceSuggestions.ScoredActivities | services/suggestions.ts:66-71 | One score per activity, a permutation of the mapped scores, by non-increasing score. |
| ServiceSuggestions.GetScoredActivities | services/suggestions.ts:57-76 | One score per activity of the unfiltered listing, each for one of those activities, by non-increasing score. |
| ServiceSuggestions.GetTopActivities | services/suggestions.ts:81-87 | At most `limit` entries, by non-increasing score, and a prefix of the scored list. |
| ServiceSuggestions.ScoredActivitiesSpec | services/suggestions.ts:57-76 | No activity is dropped. The result is a permutation of the mapped scores, sorted by non-increasing score, holding each activity's score, with ties kept in listing order. |
| ServiceSuggestions.TopActivitiesSpec | services/suggestions.ts:81-87 | The top list is the first `min(limit, n)` entries of the scored list, sorted, and no left-out activity scores above a kept one. |
| Scoring.ScoreSpec | lib/scoring.ts:6-33 | The score belongs to the given activity, lies in [−50, 120] with exactly 3 reasons, and is at least 50 iff a context matches. |
| Scoring.CalculateActivityScore | lib/scoring.ts:6-33 | The straight-line scorer computes `ScoreSpec`, with the score in [−50, 120] and exactly 3 reasons. |
| Scoring.ScoreSpecMeaning | lib/scoring.ts:10-32 | There are exactly three reasons, in the order context, priority, energy. The score lies in [−50, 120]: at least 50 with an active context and at most 20 without. An activity with no contexts gets "Contextos inactivos: -50 puntos". |
| Scoring.MatchWorth100 | lib/scoring.ts:14-20 | A matched and an unmatched activity, otherwise equal, differ by exactly 100. |
| Scoring.AgreesWithServices | lib/scoring.ts:23-30 | Against the services scorer: the same score with a match, 50 less without one, and the same priority and energy reasons. |
| QuickAdd.BandOf | components/QuickAddActivity.tsx:32-51 | The four hour branches are disjoint and cover every hour: [6,9), [9,18), [18,22), and below 6 or from 22 on. |
| QuickAdd.GetSuggestedData | components/QuickAddActivity.tsx:15-60 | The cascade's outcome as a decision table. Energy is high in [6,9), medium in [9,18), low otherwise. The category is 1 in work hours, 2 in the evening and 4 at night; early mornings give 2 on weekends and 1 on weekdays. The priority is someday at night and important in the early morning; other hours give someday on weekends and important on weekdays. The duration is 30, and the context ids are the active contexts' ids in order, or none. |
| Activities.FilterValues | lib/activities.ts:33-51 | Four optional condition values: a category that is not 0, any priority, any energy level, and any `is_completed`. |
| Activities.FilterConditions | lib/activities.ts:33-51 | The conditions are the ones the generic builder picks over the four filter columns and their optional values. |
| Activities.FilterConditionsSpec | lib/activities.ts:30-57 | The conditions come in the order category_id, priority, energy_level, is_completed, each bound to its filter's value. Category 0 adds none, `is_completed: false` binds 0, the list is empty iff no filter takes part, and then there is no WHERE clause. |
| Activities.FilterPick | lib/activities.ts:33-51 | The four `if` branches produce the four optional conditions in order. |
| Activities.GetActivities | lib/activities.ts:13-59 | The pushed conditions and arguments build the listing statement of the filters. |
| Activities.CreateArgs | lib/activities.ts:148-154 | The INSERT binds the trimmed title, the description or NULL, the category or NULL, the energy level or NULL, and the priority, which defaults to someday. |
| Activities.CreateAssignments | lib/activities.ts:143-147 | The INSERT sets exactly the columns title, description, category_id, energy_level and priority, in that order. |
| Activities.CreateActivity | lib/activities.ts:139-183 | An INSERT of the activity with those arguments. Then one context link per listed context id, and one slot row per listed time slot; both lists add nothing when missing or empty. |
| Activities.SlotItems | lib/activities.ts:171-179 | One `[day or NULL, start, end]` row per time slot, in order. |
| Activities.CreatedChildren | lib/activities.ts:160-180 | A new activity ends up with exactly the listed contexts and slots, in order. |
| Activities.UpdateValues | lib/activities.ts:192-220 | Six optional values. A null or empty title is NULL and any other title is trimmed. The description, category and energy map to NULL when null or empty. |
| Activities.UpdateAssignments | lib/activities.ts:192-220 | The update's field list is the one the generic builder picks over the six activity columns and their optional values. |
| Activities.UpdateAssignmentsSpec | lib/activities.ts:188-228 | The fields come in the order title, description, category_id, energy_level, priority, is_completed, each bound to exactly its normalised value, and the update is empty iff no field is given. |
| Activities.UpdatePick | lib/activities.ts:192-220 | The six `if` branches produce the six optional fields in order. |
| Activities.UpdateActivity | lib/activities.ts:188-266 | The UPDATE of the given fields (none when no field is given), with the id as its last argument. For a given context list, the DELETE of the old links and one INSERT per context; likewise for a given slot list. |
| Activities.UpdateReplacesSlots | lib/activities.ts:248-265 | After an update with a slot list the activity has exactly the listed slots, in order, and every other activity keeps its slots. |
| Activities.Flip | lib/activities.ts:290 | The new flag is 0 or 1, and it is 1 iff the old flag is not 1. |
| Activities.ActivityStore.constructor | lib/activities.ts:282-305 | A store with the given 0/1 flags and an empty completion log, which satisfies the store invariant `Valid`. |
| Activities.ActivityStore.Toggle | lib/activities.ts:282-305 | An unknown id fails with "not found" and changes nothing. Otherwise only that activity's flag flips, and one completion is logged exactly when the flag becomes 1. Flags stay 0/1. |
| Activities.FlipTwice | lib/activities.ts:290 | Flipping a 0/1 flag twice restores it, and exactly one of the two flips yields 1. |
| Activities.ToggleTwice | lib/activities.ts:282-305 | Two `toggleActivity` calls on a known activity of a valid store both succeed, set the flag to 1 exactly once, restore every flag, append exactly one completion of that activity to the log, and keep the store valid. |
| ActivityService.Truthy | services/activities.ts:40-52 | A filter takes part iff it is present and not 0, and then binds its own value. |
| ActivityService.FilterValues | services/activities.ts:40-52 | Three optional condition values, one per truthy filter. |
| ActivityService.FilterConditionsSpec | services/activities.ts:37-59 | The conditions come in the order category_id, priority, energy, each bound to its filter's value. An absent or 0 filter adds none, and without conditions there is no WHERE clause. |
| ActivityService.FilterPick | services/activities.ts:40-52 | The three `if` branches produce the three optional conditions in order. |
| ActivityService.GetActivities | services/activities.ts:15-61 | The pushed conditions and arguments build the listing statement of the filters. |
| ActivityService.PriorityOrDefault | services/activities.ts:175 | The priority defaults to 3: 3 when missing or 0, otherwise the given code. |
| ActivityService.CreateActivity | services/activities.ts:161-192 | The INSERT binds the trimmed title, then the description, category and energy or NULL, then the priority defaulting to 3. One context link follows per listed id. |
| ActivityService.CreateLinksContexts | services/activities.ts:182-189 | A new activity ends up linked to exactly the listed contexts, in order. |
| ActivityService.UpdateValues | services/activities.ts:201-224 | Five optional values. A null or empty title is NULL and a padded title is trimmed. An empty description, category or energy is NULL. |
| ActivityService.UpdateAssignmentsSpec | services/activities.ts:197-232 | The fields come in the order title, description, category_id, energy, priority, each bound to exactly its normalised value, and the update is empty iff no field is given. |
| ActivityService.UpdatePick | services/activities.ts:201-224 | The five `if` branches produce the five optional fields in order. |
| ActivityService.UpdateActivity | services/activities.ts:197-252 | The UPDATE of the given fields, with the id last, or none. Then, for a given context list, the DELETE of the old links and one INSERT per listed context. |
| ActivityService.UpdateReplacesContexts | services/activities.ts:235-249 | A given context list replaces the activity's links exactly, in the given order, and leaves other activities' links alone. |
| Categories.CreateCategory | lib/categories.ts:45-52 | The INSERT binds the trimmed name, the colour as given, and the icon or NULL when it is missing or empty. |
| Categories.CreateAssignments | lib/categories.ts:47-48 | The INSERT sets exactly the columns name, color and icon, in that order. |
| Categories.UpdateValues | lib/categories.ts:64-77 | Three optional values: the trimmed name, the colour, and the icon (a null or empty icon is still set, as NULL). |
| Categories.UpdateAssignments | lib/categories.ts:64-77 | The update's field list is the one the generic builder picks over the three category columns and their optional values. |
| Categories.UpdateAssignmentsSpec | lib/categories.ts:57-85 | The fields come in the order name, color, icon, each bound to exactly its value, and the update is empty iff no field is given. An explicit null icon is still emitted. |
| Categories.UpdateCategory | lib/categories.ts:57-86 | The UPDATE of the given fields with the id last, or no statement when no field is given. |
| Sql.OrNull | lib/contexts.ts:62-63 | An optional string defaults to NULL: NULL iff missing or empty, otherwise the string itself. |
| Sql.PatchOrNull | lib/activities.ts:197-200 | A given string field of an update defaults to NULL: NULL iff null or empty, otherwise the string. |
| Sql.JsonOrNull | lib/contexts.ts:61 | `days ? JSON.stringify(days) : null`: NULL iff missing; any list, even an empty one, becomes JSON. |
| Sql.NumOrNull | lib/activities.ts:151 | An optional number defaults to NULL: NULL iff missing or 0, otherwise the number. |
| Sql.PatchNumOrNull | lib/activities.ts:202-205 | A given numeric field of an update defaults to NULL: NULL iff null or 0. |
| Sql.TrimmedOrNull | lib/activities.ts:192-195 | `title ? title.trim() : null`: NULL iff null or empty, otherwise the trimmed title. |
| Sql.BlankTitleIsEmpty | lib/activities.ts:192-195 | A title of only whitespace is stored as the empty string, not as NULL. |
| Sql.Field | lib/contexts.ts:86-89 | A field contributes one assignment exactly when its value is given. |
| Sql.PushIfGiven | lib/contexts.ts:86-109 | One `if (x !== undefined)` step keeps `fields` and `args` aligned with the assignments collected so far. |
| Sql.PushAssignment | lib/contexts.ts:87-88 | Pushing a clause and its value extends both lists by one, in step. |
| Sql.Pick | lib/categories.ts:64-77 | A builder's field list is no longer than its column list and is empty iff no value is given. |
| Sql.PickSpec | lib/contexts.ts:83-109 | Over distinct columns, the set columns come in the order the builder examines them, and each column is bound to exactly its given value. |
| Sql.PickOrder | lib/contexts.ts:83-109 | The set columns are a subsequence of the examined columns. |
| Sql.PickValue | lib/contexts.ts:83-109 | Over distinct columns, each column is bound to its given value, and a column not given is absent. |
| Sql.PickValues | lib/contexts.ts:83-109 | The arguments are the given values, in column order. |
| Sql.PickAppend | lib/activities.ts:192-220 | Examining two column lists one after the other concatenates their fields. |
| Sql.ValueOf | lib/contexts.ts:83-109 | A column has no bound value iff it is not set. |
| Sql.UpdateStatement | lib/contexts.ts:111-117 | No statement iff nothing is set. Otherwise the arguments are the assignments' values in order, followed by the id as the last argument. |
| Sql.IssueUpdate | lib/contexts.ts:111-117 | `if (fields.length > 0) { args.push(id); ... }` issues exactly that statement. |
| Sql.UpdatePlaceholders | lib/contexts.ts:114 | An UPDATE of a table name without `?` binds one argument per placeholder. |
| Sql.ClausePlaceholders | lib/contexts.ts:114 | The joined `column = ?` clauses hold one placeholder per clause. |
| Sql.SelectStatement | lib/activities.ts:53-57 | The arguments are the conditions' values; without conditions the text is the head followed by the tail. |
| Sql.IssueSelect | lib/activities.ts:53-57 | The WHERE join and the fixed tail build exactly that statement. |
| Sql.PushConditionIfGiven | lib/activities.ts:33-51 | One `if (filter)` step keeps `conditions` and `args` aligned with the conditions collected so far. |
| Sql.Values | lib/contexts.ts:58-64 | The arguments are the assignments' values, one each, in order. |
| Sql.Marks | lib/categories.ts:47 | The placeholder list of an INSERT holds one `?` per column. |
| Links.ReplaceExactly | lib/activities.ts:231-245 | After the DELETE and the INSERT loop, the activity's rows are exactly the new items, in order, whatever it had before. Every other activity's rows are unchanged. |
| Links.AddAllAppends | lib/activities.ts:160-167 | The INSERT loop appends exactly its items to the activity's rows, in order, and changes no other activity's rows. |
| Links.ChildrenOfWithout | lib/activities.ts:233-236 | The DELETE empties the activity's rows and leaves other activities' rows alone. |
| Links.Without | lib/activities.ts:233-236 | After the DELETE, a row is left iff it was there and belongs to another activity. |
| Links.Apply | lib/activities.ts:160-166 | One statement changes only its own activity's rows: the DELETE empties them and an INSERT appends its row's values to them. |
| Links.Replace | lib/activities.ts:231-245 | The statements of a replacement: the DELETE first, then one INSERT per item, in item order. |
| Links.ClearSql | lib/activities.ts:234 | The DELETE text holds one placeholder, for the activity id. |
| Links.AddSql | lib/activities.ts:162-165 | The INSERT text holds one placeholder for the activity id and one for each other value of the row. |
| Links.MarkList | lib/activities.ts:174-175 | The placeholder list holds exactly the given number of `?`. |
| Links.RenderPlaceholders | lib/activities.ts:160-179 | Every DELETE, and every INSERT of a row of the table's width, has exactly one placeholder per argument it binds. |
| Links.InsertChildren | lib/activities.ts:161-166 | The `for` loop issues one INSERT per item, in order. |
| Links.ReplaceChildren | lib/activities.ts:231-245 | The DELETE followed by the INSERT loop, as statements. |
| Links.Render | lib/activities.ts:162-165 | The activity id binds the first placeholder of each statement, followed by the row's other values. |
| Links.AddAll | lib/activities.ts:161-166 | One INSERT per item, in order. |
| Links.ContextItems | lib/activities.ts:239-244 | One `[context_id]` row per listed context id, in order. |
| Ranking.SortDescSpec | lib/suggestions.ts:145 | The stable sort returns a permutation sorted by non-increasing key, and keeps each key class in its input order. |
| Ranking.SortDescUnique | lib/suggestions.ts:145 | Only one sequence is sorted with given key classes, so the stable sort's result is determined. |
| Ranking.TakeKeepsBest | lib/suggestions.ts:145 | A prefix of a sorted list is sorted, and every kept element scores at least as much as every dropped one. |
| Ranking.WithKeyPrefix | lib/suggestions.ts:145 | The first `m` elements hold, of each key class, a prefix of that class. |
| Ranking.TopByKey | lib/suggestions.ts:145 | The top `n` of the sort are input elements, none dropped outscores one kept, and with `n` at least the length all are kept. |
| Ranking.TopKeepsFirstOfKey | lib/suggestions.ts:145 | Of each key, the top `n` of the stable sort keeps the first elements of that key, in input order. |
| Ranking.Take | lib/suggestions.ts:145 | `slice(0, n)` for `n >= 0`: a prefix whose length is the smaller of `n` and the input length. |
| Ranking.InsertStable | lib/suggestions.ts:145 | Inserting puts the new element ahead of its own key class and keeps the rest of each class in order. |
| Ranking.InsertSorted | lib/suggestions.ts:145 | Inserting into a sorted list keeps it sorted. |
| Ranking.Insert | lib/suggestions.ts:145 | Inserting makes the list exactly one longer. |
| Ranking.InsertElements | lib/suggestions.ts:145 | Inserting adds exactly the new element. |
| Ranking.SortDesc | lib/suggestions.ts:145 | The sort keeps the length and the elements of its input and orders them by non-increasing key. |
| Text.Trim | lib/contexts.ts:59-60 | `trim()` removes exactly the leading and trailing whitespace and keeps the middle. |
| Text.TrimIdempotent | lib/contexts.ts:59-60 | Trimming twice is trimming once. |
| Text.TrimUnchanged | lib/categories.ts:48 | A name with no whitespace at either end is stored unchanged. |
| Text.TrimEmptyIffBlank | lib/activities.ts:149 | The trimmed title is empty iff the title is all whitespace. |
| Text.NatToString | services/suggestions.ts:39 | `${n}` is a non-empty string of decimal digits. |
| Text.NatToStringRoundTrip | services/suggestions.ts:39 | `${n}` reads back as `n`. |
| Text.OccurrencesJoin | lib/contexts.ts:114 | Joining one-placeholder clauses with a separator free of `?` gives one placeholder per clause. |
| Text.Join | lib/suggestions.ts:140 | No parts join to the empty string. Otherwise the result starts with the first part and ends with the last, and with two or more parts the separator follows the first part. |

## Left out

- I/O: `db.execute`, the libsql client, row mapping, `JSON.parse` of `days`, `created_at`, and `console` logging. Statements are data, and the new row's `lastInsertRowid` is a parameter.
- The clock: `new Date()` becomes the parameter `now`, and the current time string is derived from its minute. The second clock read for "today" in the daily rule uses the same `now`'s date key, and an unparsable `last_completed` (Invalid Date) is not modelled.
- Floating-point hours: the recency thresholds are compared in integer milliseconds (less than 7 200 000 and less than 21 600 000), which gives the same answers.
- `slice` with a negative `limit`: `limit` is a natural number.
- The default `limit = 10` of `getSuggestedActivities` (lib/suggestions.ts:9) and `getTopActivities` (services/suggestions.ts:83): `limit` is always passed explicitly, so a call that omits it is the call with 10.
- String order: JavaScript compares UTF-16 code units, and the model compares characters. The two agree on the `HH:MM` strings compared here.
- Times that are not zero-padded `HH:MM` strings are compared as strings, exactly as the source does. The numeric readings (`IsActiveMeaning`, `SlotMatchIsRange`) assume well-formed times.
- Statement layout: the listing query's head text, and the multi-line slot INSERT of `createActivity` and `updateActivity` (lib/activities.ts:174-177 and lib/activities.ts:257-260), are written on one line with their whitespace reduced to single spaces. The link statements (`Links.ClearSql`, `Links.AddSql`) are built from short pieces, and the other INSERT texts (activities, contexts, categories) from their column lists. Their equality with the source's literal text is not proved; for the link statements, as for the UPDATEs, the placeholder count is.
- An absent `contexts` or `time_slots` of a fetched activity is the empty list, which the source treats alike.
- `completeActivity`, `deleteActivity`, `deleteContext`, `deleteCategory`, `getContexts`, `getContextById`, `getCategories`, `getCategoryById`, `getActivityById` and `getActivityCompletions` are single queries or row mappings, outside the suggestion engine.
- services/contexts.ts `createContext` and `updateContext` (services/contexts.ts:19-76) are textually the same as the lib/contexts.ts builders, and `Contexts.CreateContext` and `Contexts.UpdateContext` model both copies.
- The SWR hook around `calculateActiveContexts`, the React component around `getSuggestedData`, and all UI and HTTP routes are left out.
- `toggleActivity` is modelled by its effect on the stored flags and the completion log (`Activities.ActivityStore.Toggle`), not by the text of its two statements.
- The slot rule of the scorer does not cross midnight, and this model follows the code: a slot such as 23:00–05:00 never earns +60 (`Suggestions.CrossingSlotNeverMatches`), although context windows do cross midnight.
- `lib/types.ts` declares numeric priority and energy codes (lib/types.ts:32-33), while lib/suggestions.ts uses string levels. The rich engine uses the levels and the services and lib/scoring.ts scorers use the codes; the two are not reconciled.
