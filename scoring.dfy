/**
 * The scorer of lib/scoring.ts: the services scorer with a penalty instead of
 * a missing bonus. An activity with an active context gains 50, any other
 * loses 50, and the priority and energy tables are the same.
 */
module Scoring {
  import opened ServiceSuggestions
  import Contexts

  const InactiveReason: string := "Contextos inactivos: -50 puntos"

  /** The score and reasons of `calculateActivityScore`: always one reason per rule. */
  function ScoreSpec(a: CodedActivity, contexts: seq<Contexts.Context>): (r: ActivityScore)
    ensures r.activity == a && -50 <= r.score <= 120 && |r.reasons| == 3
    ensures HasActiveContext(a.contexts, contexts) <==> r.score >= 50
  {
    var matched := HasActiveContext(a.contexts, contexts);
    assert PriorityPoints(a.priority) <= 40 && EnergyPoints(a.energy) <= 30;
    ActivityScore(a,
                  (if matched then 50 else -50) + PriorityPoints(a.priority) + EnergyPoints(a.energy),
                  [if matched then MatchReason else InactiveReason,
                   PriorityReason(PriorityPoints(a.priority)), EnergyReason(EnergyPoints(a.energy))])
  }

  /** `calculateActivityScore(activity, contexts)`. */
  method CalculateActivityScore(activity: CodedActivity, contexts: seq<Contexts.Context>) returns (r: ActivityScore)
    ensures r == ScoreSpec(activity, contexts)
    ensures r.activity == activity && -50 <= r.score <= 120 && |r.reasons| == 3
  {
    var score: int := 0;
    var reasons: seq<string> := [];
    var hasActiveContext := HasActiveContext(activity.contexts, contexts);
    if hasActiveContext {
      score := score + 50;
      reasons := reasons + [MatchReason];
    } else {
      score := score - 50;
      reasons := reasons + [InactiveReason];
    }
    var priorityPoints := PriorityPoints(activity.priority);
    score := score + priorityPoints;
    reasons := reasons + [PriorityReason(priorityPoints)];
    var energyPoints := EnergyPoints(activity.energy);
    score := score + energyPoints;
    reasons := reasons + [EnergyReason(energyPoints)];
    r := ActivityScore(activity, score, reasons);
  }

  /**
   * Exactly three reasons, context then priority then energy; the score lies in
   * [-50, 120], at least 50 with an active context and at most 20 without one
   * (an activity with no contexts at all included).
   */
  lemma ScoreSpecMeaning(a: CodedActivity, contexts: seq<Contexts.Context>)
    ensures var r := ScoreSpec(a, contexts);
      && |r.reasons| == 3
      && r.reasons[0] == (if HasActiveContext(a.contexts, contexts) then MatchReason else InactiveReason)
      && r.reasons[1] == PriorityReason(PriorityPoints(a.priority))
      && r.reasons[2] == EnergyReason(EnergyPoints(a.energy))
      && -50 <= r.score <= 120
      && (HasActiveContext(a.contexts, contexts) ==> r.score >= 50)
      && (!HasActiveContext(a.contexts, contexts) ==> r.score <= 20)
      && (a.contexts == [] ==> r.reasons[0] == InactiveReason)
  {
    var p, e := PriorityPoints(a.priority), EnergyPoints(a.energy);
    assert p <= 40 && e <= 30;
  }

  /** A matched and an unmatched activity, otherwise equal, are 100 points apart. */
  lemma MatchWorth100(a: CodedActivity, b: CodedActivity, contexts: seq<Contexts.Context>)
    requires a.priority == b.priority && a.energy == b.energy
    requires HasActiveContext(a.contexts, contexts) && !HasActiveContext(b.contexts, contexts)
    ensures ScoreSpec(a, contexts).score == ScoreSpec(b, contexts).score + 100
  {}

  /**
   * Against the services scorer: the same score with a matching context, 50
   * less without one, and the same priority and energy reasons.
   */
  lemma AgreesWithServices(a: CodedActivity, contexts: seq<Contexts.Context>)
    ensures ScoreSpec(a, contexts).score ==
            Assess(a, contexts).score - (if HasActiveContext(a.contexts, contexts) then 0 else 50)
    ensures ScoreSpec(a, contexts).reasons[1..] ==
            Assess(a, contexts).reasons[|Assess(a, contexts).reasons| - 2..]
  {}
}
