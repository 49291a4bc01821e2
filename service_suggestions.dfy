/**
 * The simple scorer of services/suggestions.ts. An activity carries its
 * priority and energy as the numeric codes 1, 2 and 3; its score is 50 when one
 * of its contexts is active, plus a priority and an energy bonus read from two
 * fixed tables. Every activity is scored (none is skipped), and the list is
 * ordered by non-increasing score and may be cut to its first `limit` entries.
 */
module ServiceSuggestions {
  import opened Wrappers
  import opened Text
  import opened Ranking
  import Contexts
  import ActivityService

  /**
   * An activity as the services layer returns it: `priority` and `energy` are
   * the stored codes, whatever value the row holds; a missing `energy` is `None`.
   */
  datatype CodedActivity = CodedActivity(id: int, title: string, categoryId: Option<int>, energy: Option<int>,
                                         priority: int, contexts: seq<Contexts.Context>)

  /** `ActivityScore`. */
  datatype ActivityScore = ActivityScore(activity: CodedActivity, score: int, reasons: seq<string>)

  const MatchReason: string := "Coincide con contexto activo"

  /** `[0, 40, 25, 10]` and `[0, 30, 20, 10]`, indexed by the code. */
  const PriorityTable: seq<nat> := [0, 40, 25, 10]
  const EnergyTable: seq<nat> := [0, 30, 20, 10]

  /** `table[i] || 0`: an index outside the table reads `undefined`, which becomes 0. */
  function Lookup(table: seq<nat>, i: int): (r: nat)
    ensures i < 0 || i >= |table| ==> r == 0
    ensures 0 <= i < |table| ==> r == table[i]
  {
    if 0 <= i < |table| then table[i] else 0
  }

  /** Priority 1 gives 40, 2 gives 25, 3 gives 10, and any other code 0. */
  function PriorityPoints(priority: int): (r: nat)
    ensures r == 40 <==> priority == 1
    ensures r == 25 <==> priority == 2
    ensures r == 10 <==> priority == 3
    ensures r == 0 <==> priority < 1 || priority > 3
  {
    Lookup(PriorityTable, priority)
  }

  /** `energy ? table[energy] || 0 : 0`: energy 1 gives 30, 2 gives 20, 3 gives 10; missing or any other value 0. */
  function EnergyPoints(energy: Option<int>): (r: nat)
    ensures r == 30 <==> energy == Some(1)
    ensures r == 20 <==> energy == Some(2)
    ensures r == 10 <==> energy == Some(3)
    ensures r == 0 <==> energy.None? || energy.value < 1 || energy.value > 3
  {
    if energy.Some? && energy.value != 0 then Lookup(EnergyTable, energy.value) else 0
  }

  /** `Prioridad: +${points} puntos`. */
  function PriorityReason(points: nat): (r: string)
    ensures |r| == 19 + |NatToString(points)|
    ensures r[..12] == "Prioridad: +" && r[|r| - 7..] == " puntos"
  {
    "Prioridad: +" + NatToString(points) + " puntos"
  }

  /** `Energía: +${points} puntos`. */
  function EnergyReason(points: nat): (r: string)
    ensures |r| == 17 + |NatToString(points)|
    ensures r[..10] == "Energía: +" && r[|r| - 7..] == " puntos"
  {
    "Energía: +" + NatToString(points) + " puntos"
  }

  /** `activity.contexts?.some(c => activeContexts.some(a => a.id === c.id))`. */
  predicate HasActiveContext(contexts: seq<Contexts.Context>, active: seq<Contexts.Context>)
    ensures contexts == [] || active == [] ==> !HasActiveContext(contexts, active)
    ensures forall c :: c in contexts && c in active ==> HasActiveContext(contexts, active)
  {
    exists i, j :: 0 <= i < |contexts| && 0 <= j < |active| && active[j].id == contexts[i].id
  }

  /** The score and reasons `calculateActivityScore` returns: the three rules in order. */
  function Assess(a: CodedActivity, active: seq<Contexts.Context>): (r: ActivityScore)
    ensures r.activity == a && 0 <= r.score <= 120
    ensures |r.reasons| == (if HasActiveContext(a.contexts, active) then 3 else 2)
  {
    var matched := HasActiveContext(a.contexts, active);
    assert PriorityPoints(a.priority) <= 40 && EnergyPoints(a.energy) <= 30;
    ActivityScore(a,
                  (if matched then 50 else 0) + PriorityPoints(a.priority) + EnergyPoints(a.energy),
                  (if matched then [MatchReason] else []) +
                  [PriorityReason(PriorityPoints(a.priority)), EnergyReason(EnergyPoints(a.energy))])
  }

  /** `calculateActivityScore(activity, activeContexts)`: one rule after another on `score` and `reasons`. */
  method CalculateActivityScore(activity: CodedActivity, activeContexts: seq<Contexts.Context>)
    returns (r: ActivityScore)
    ensures r == Assess(activity, activeContexts)
    ensures r.activity == activity && 0 <= r.score <= 120
  {
    var score: int := 0;
    var reasons: seq<string> := [];
    var hasActiveContext := HasActiveContext(activity.contexts, activeContexts);
    if hasActiveContext {
      score := score + 50;
      reasons := reasons + [MatchReason];
    }
    var priorityPoints := PriorityPoints(activity.priority);
    score := score + priorityPoints;
    reasons := reasons + [PriorityReason(priorityPoints)];
    var energyPoints := EnergyPoints(activity.energy);
    score := score + energyPoints;
    reasons := reasons + [EnergyReason(energyPoints)];
    r := ActivityScore(activity, score, reasons);
  }

  /**
   * The score lies in [0, 120]: at least 50 with an active context, at most 70
   * without one. The reasons end with the priority and the energy reason, and
   * there is a third one, the context reason in front, exactly when a context
   * matched.
   */
  lemma AssessMeaning(a: CodedActivity, active: seq<Contexts.Context>)
    ensures var r := Assess(a, active);
      && r.activity == a
      && 0 <= r.score <= 120
      && (HasActiveContext(a.contexts, active) ==> r.score >= 50)
      && (!HasActiveContext(a.contexts, active) ==> r.score <= 70)
      && |r.reasons| == (if HasActiveContext(a.contexts, active) then 3 else 2)
      && (HasActiveContext(a.contexts, active) ==> r.reasons[0] == MatchReason)
      && r.reasons[|r.reasons| - 2] == PriorityReason(PriorityPoints(a.priority))
      && r.reasons[|r.reasons| - 1] == EnergyReason(EnergyPoints(a.energy))
  {
    var p, e := PriorityPoints(a.priority), EnergyPoints(a.energy);
    assert p <= 40 && e <= 30;
  }

  /** Each reason's number reads back as the points its rule added. */
  lemma ReasonPoints(points: nat)
    ensures PriorityReason(points)[12..|PriorityReason(points)| - 7] == NatToString(points)
    ensures DecimalValue(PriorityReason(points)[12..|PriorityReason(points)| - 7]) == points
    ensures EnergyReason(points)[10..|EnergyReason(points)| - 7] == NatToString(points)
    ensures DecimalValue(EnergyReason(points)[10..|EnergyReason(points)| - 7]) == points
  {
    var digits := NatToString(points);
    var prefix, suffix := "Prioridad: +", " puntos";
    assert |prefix| == 12 && |suffix| == 7;
    assert PriorityReason(points) == prefix + digits + suffix;
    assert (prefix + digits + suffix)[12..12 + |digits|] == digits;
    var energyPrefix := "Energía: +";
    assert |energyPrefix| == 10;
    assert EnergyReason(points) == energyPrefix + digits + suffix;
    assert (energyPrefix + digits + suffix)[10..10 + |digits|] == digits;
    NatToStringRoundTrip(points);
  }

  /** Two activities that differ only in their contexts differ by 50 when only one of them matches. */
  lemma ContextWorth50(a: CodedActivity, b: CodedActivity, active: seq<Contexts.Context>)
    requires a.priority == b.priority && a.energy == b.energy
    requires HasActiveContext(a.contexts, active) && !HasActiveContext(b.contexts, active)
    ensures Assess(a, active).score == Assess(b, active).score + 50
  {}

  // ---------------------------------------------------------------------------
  // getScoredActivities, getTopActivities
  // ---------------------------------------------------------------------------

  function ScoreKey(s: ActivityScore): int {
    s.score
  }

  /** `activities.map(a => calculateActivityScore(a, activeContexts))`. */
  function ScoreAll(activities: seq<CodedActivity>, active: seq<Contexts.Context>): (r: seq<ActivityScore>)
    ensures |r| == |activities| && forall k :: 0 <= k < |r| ==> r[k] == Assess(activities[k], active)
  {
    if activities == [] then [] else [Assess(activities[0], active)] + ScoreAll(activities[1..], active)
  }

  /** `sort((a, b) => b.score - a.score)`: a stable sort by non-increasing score. */
  function ScoredActivities(activities: seq<CodedActivity>, active: seq<Contexts.Context>): (r: seq<ActivityScore>)
    ensures |r| == |activities| && SortedDesc(r, ScoreKey)
    ensures multiset(r) == multiset(ScoreAll(activities, active))
  {
    SortDescSpec(ScoreAll(activities, active), ScoreKey);
    SortDesc(ScoreAll(activities, active), ScoreKey)
  }

  /** `getScoredActivities(activeContexts)`: every activity the unfiltered listing returns, scored and ordered. */
  function GetScoredActivities(fetch: ActivityService.Filters -> seq<CodedActivity>, active: seq<Contexts.Context>)
    : (r: seq<ActivityScore>)
    ensures |r| == |fetch(ActivityService.NoFilters)| && SortedDesc(r, ScoreKey)
    ensures forall s :: s in r ==> s.activity in fetch(ActivityService.NoFilters)
  {
    var r := ScoredActivities(fetch(ActivityService.NoFilters), active);
    assert forall s :: s in r ==> s in multiset(ScoreAll(fetch(ActivityService.NoFilters), active));
    r
  }

  /** `getTopActivities(activeContexts, limit)`: the first `limit` entries. */
  function GetTopActivities(fetch: ActivityService.Filters -> seq<CodedActivity>, active: seq<Contexts.Context>,
                            limit: nat): (r: seq<ActivityScore>)
    ensures |r| <= limit && |r| <= |GetScoredActivities(fetch, active)| && SortedDesc(r, ScoreKey)
    ensures r == GetScoredActivities(fetch, active)[..|r|]
  {
    TakeKeepsBest(GetScoredActivities(fetch, active), limit, ScoreKey);
    Take(GetScoredActivities(fetch, active), limit)
  }

  /**
   * No activity is dropped: the scored list holds exactly one score per
   * activity (a permutation of the mapped list), ordered by non-increasing
   * score, and activities with equal scores keep their listing order.
   */
  lemma ScoredActivitiesSpec(activities: seq<CodedActivity>, active: seq<Contexts.Context>)
    ensures var r := ScoredActivities(activities, active);
      && |r| == |activities|
      && multiset(r) == multiset(ScoreAll(activities, active))
      && SortedDesc(r, ScoreKey)
      && (forall a :: a in activities ==> Assess(a, active) in r)
      && (forall s :: s in r ==> s.activity in activities && s == Assess(s.activity, active))
      && (forall k :: WithKey(r, ScoreKey, k) == WithKey(ScoreAll(activities, active), ScoreKey, k))
  {
    var mapped := ScoreAll(activities, active);
    var r := ScoredActivities(activities, active);
    SortDescSpec(mapped, ScoreKey);
    forall a | a in activities ensures Assess(a, active) in r {
      var k :| 0 <= k < |activities| && activities[k] == a;
      assert mapped[k] in multiset(mapped);
    }
    forall s | s in r ensures s.activity in activities && s == Assess(s.activity, active) {
      assert s in multiset(mapped);
      var k :| 0 <= k < |mapped| && mapped[k] == s;
    }
  }

  /**
   * The top list is the first `min(limit, n)` entries of the scored list, and
   * no activity left out scores above one kept.
   */
  lemma TopActivitiesSpec(fetch: ActivityService.Filters -> seq<CodedActivity>, active: seq<Contexts.Context>, limit: nat)
    ensures var all := GetScoredActivities(fetch, active);
      var top := GetTopActivities(fetch, active, limit);
      && |top| == (if limit <= |all| then limit else |all|)
      && top == all[..|top|]
      && SortedDesc(top, ScoreKey)
      && (forall c, s :: c in all && c !in top && s in top ==> ScoreKey(c) <= ScoreKey(s))
  {
    var mapped := ScoreAll(fetch(ActivityService.NoFilters), active);
    SortDescSpec(mapped, ScoreKey);
    TakeKeepsBest(SortDesc(mapped, ScoreKey), limit, ScoreKey);
    TopByKey(mapped, limit, ScoreKey);
  }
}
