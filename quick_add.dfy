/**
 * The defaults the quick-add form of components/QuickAddActivity.tsx proposes
 * for a new activity: a category, a priority and an energy level chosen from
 * the weekday and the hour, a 30-minute duration, and the ids of the contexts
 * active now.
 */
module QuickAdd {
  import opened Wrappers
  import opened Records
  import Contexts
  import Suggestions

  /** The hour bands the form tells apart: [6, 9), [9, 18), [18, 22), and the rest. */
  datatype HourBand = EarlyMorning | WorkHours | EveningHours | NightHours

  /** The band of an hour; hours below 6 and from 22 on are night. */
  function BandOf(hour: int): (b: HourBand)
    ensures b == EarlyMorning <==> 6 <= hour < 9
    ensures b == WorkHours <==> 9 <= hour < 18
    ensures b == EveningHours <==> 18 <= hour < 22
    ensures b == NightHours <==> hour < 6 || hour >= 22
  {
    if 6 <= hour < 9 then EarlyMorning
    else if 9 <= hour < 18 then WorkHours
    else if 18 <= hour < 22 then EveningHours
    else NightHours
  }

  /** `getDay()` is 0 on Sunday and 6 on Saturday. */
  predicate IsWeekend(day: int) {
    day == 0 || day == 6
  }

  datatype SuggestedData = SuggestedData(categoryId: int, priority: Priority, energyLevel: EnergyLevel,
                                         durationMinutes: int, contextIds: seq<int>)

  /**
   * `getSuggestedData()` for the local hour and weekday of the moment it runs;
   * `activeContexts` is `None` while the hook has not delivered them.
   *
   * The cascade resolves to: high energy in the early morning, medium in work
   * hours, low otherwise; category 1 in work hours, 2 in the evening, 4 at
   * night, and otherwise 2 on weekends and 1 on weekdays; priority someday at
   * night, important in the early morning, and otherwise someday on weekends
   * and important on weekdays.
   */
  method GetSuggestedData(hour: int, day: int, activeContexts: Option<seq<Contexts.Context>>)
    returns (r: SuggestedData)
    ensures r.energyLevel == match BandOf(hour)
                             case EarlyMorning => High
                             case WorkHours => Medium
                             case _ => Low
    ensures r.categoryId == match BandOf(hour)
                            case WorkHours => 1
                            case EveningHours => 2
                            case NightHours => 4
                            case EarlyMorning => if IsWeekend(day) then 2 else 1
    ensures r.priority == match BandOf(hour)
                          case NightHours => Someday
                          case EarlyMorning => Important
                          case _ => if IsWeekend(day) then Someday else Important
    ensures r.durationMinutes == 30
    ensures r.contextIds == if activeContexts.Some? then Suggestions.Ids(activeContexts.value) else []
  {
    var suggestedCategoryId := 1;
    var suggestedPriority := Important;
    var suggestedEnergyLevel := Medium;

    if day == 0 || day == 6 {
      suggestedCategoryId := 2;
      suggestedPriority := Someday;
    }

    if hour >= 6 && hour < 9 {
      suggestedEnergyLevel := High;
      suggestedPriority := Important;
    } else if hour >= 9 && hour < 18 {
      suggestedCategoryId := 1;
      suggestedEnergyLevel := Medium;
    } else if hour >= 18 && hour < 22 {
      suggestedEnergyLevel := Low;
      suggestedCategoryId := 2;
    } else if hour >= 22 || hour < 6 {
      suggestedEnergyLevel := Low;
      suggestedCategoryId := 4;
      suggestedPriority := Someday;
    }

    var contextIds := if activeContexts.Some? then Suggestions.Ids(activeContexts.value) else [];
    r := SuggestedData(suggestedCategoryId, suggestedPriority, suggestedEnergyLevel, 30, contextIds);
  }
}
