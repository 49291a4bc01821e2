/**
 * The activity records the suggestion engine reads (the `ActivityWithDetails`
 * rows of lib/suggestions.ts and the request shapes of lib/activities.ts).
 * Priorities and energy levels are the string keys lib/suggestions.ts uses,
 * written as enumerations.
 */
module Records {
  import opened Wrappers
  import Contexts

  datatype Priority = Urgent | Important | Someday

  datatype EnergyLevel = Low | Medium | High

  /** `recurrence_type`: only "daily" matters to the scorer. */
  datatype Recurrence = Daily | OtherRecurrence(kind: string)

  /** A time slot: an optional weekday code and "HH:MM" bounds. */
  datatype TimeSlot = TimeSlot(dayOfWeek: Option<string>, timeStart: string, timeEnd: string)

  /** A parsed `last_completed`: its millisecond timestamp and the key of its local calendar date. */
  datatype Completion = Completion(epochMs: int, dateKey: int)

  /** An activity with its linked contexts and time slots, as the scorer receives it. */
  datatype Activity = Activity(id: int, title: string, categoryId: Option<int>, energyLevel: Option<EnergyLevel>,
                               priority: Priority, isRecurring: bool, recurrence: Option<Recurrence>,
                               contexts: seq<Contexts.Context>, timeSlots: seq<TimeSlot>,
                               lastCompleted: Option<Completion>)

  /** `GetActivitiesFilters`; an absent key is `None`. */
  datatype ActivityFilters = ActivityFilters(categoryId: Option<int>, priority: Option<Priority>,
                                             energyLevel: Option<EnergyLevel>, isCompleted: Option<bool>)

  /** The stored spelling of a priority. */
  function PriorityName(p: Priority): string {
    match p
    case Urgent => "urgent"
    case Important => "important"
    case Someday => "someday"
  }

  /** The stored spelling of an energy level. */
  function EnergyName(e: EnergyLevel): string {
    match e
    case Low => "low"
    case Medium => "medium"
    case High => "high"
  }
}
