/**
 * services/contexts.ts: a second copy of the context service. Its create and
 * update builders are textually those of lib/contexts.ts and are modelled by
 * `Contexts.CreateContext` and `Contexts.UpdateContext`; its activation filter
 * is written out again here and proved to select exactly what the lib/contexts.ts
 * filter selects.
 */
module ContextService {
  import opened Wrappers
  import opened Clock
  import Contexts
  import opened Ranking

  /** The filter callback of this module's `getActiveContexts`. */
  predicate IsActive(c: Contexts.Context, now: Instant)
    ensures IsActive(c, now) <==> Contexts.IsActive(c, now)
  {
    var currentDay := DayName(now.weekday);
    var currentTime := FormatHHMM(now.minute);
    if c.days.Some? && currentDay !in c.days.value then false
    else if Contexts.Present(c.timeStart) && Contexts.Present(c.timeEnd) then
      if LexLt(c.timeEnd.value, c.timeStart.value) then
        !LexLt(currentTime, c.timeStart.value) || !LexLt(c.timeEnd.value, currentTime)
      else
        !LexLt(currentTime, c.timeStart.value) && !LexLt(c.timeEnd.value, currentTime)
    else true
  }

  /** `getActiveContexts`: the contexts the callback keeps, in their stored order. */
  function GetActiveContexts(cs: seq<Contexts.Context>, now: Instant): (r: seq<Contexts.Context>)
    ensures |r| <= |cs|
    ensures forall c :: c in r <==> c in cs && Contexts.IsActive(c, now)
    ensures IsSubsequence(r, cs)
  {
    if cs == [] then []
    else
      var rest := GetActiveContexts(cs[1..], now);
      assert cs == [cs[0]] + cs[1..];
      if IsActive(cs[0], now) then
        assert ([cs[0]] + rest)[1..] == rest;
        [cs[0]] + rest
      else
        rest
  }

  /** This copy selects exactly the contexts the lib/contexts.ts filter selects, in the same order. */
  lemma {:induction false} SameAsLib(cs: seq<Contexts.Context>, now: Instant)
    ensures GetActiveContexts(cs, now) == Contexts.GetActiveContexts(cs, now)
  {
    if cs != [] {
      SameAsLib(cs[1..], now);
      assert IsActive(cs[0], now) == Contexts.IsActive(cs[0], now);
    }
  }
}
