/**
 * hooks/useActiveContexts.ts: the client recomputes the active contexts from the
 * fetched list with a third copy of the activation rule. The data fetching and
 * the refresh interval around it are not modelled.
 */
module ActiveContextsHook {
  import opened Clock
  import Contexts
  import opened Ranking

  /** The filter callback of `calculateActiveContexts`. */
  predicate Keeps(c: Contexts.Context, now: Instant)
    ensures Keeps(c, now) <==> Contexts.IsActive(c, now)
  {
    var currentDay := DayName(now.weekday);
    var currentTime := FormatHHMM(now.minute);
    if c.days.Some? && currentDay !in c.days.value then false
    else if !(Contexts.Present(c.timeStart) && Contexts.Present(c.timeEnd)) then true
    else if LexLt(c.timeEnd.value, c.timeStart.value) then
      !LexLt(currentTime, c.timeStart.value) || !LexLt(c.timeEnd.value, currentTime)
    else
      !LexLt(currentTime, c.timeStart.value) && !LexLt(c.timeEnd.value, currentTime)
  }

  /** `calculateActiveContexts(contexts)` at the instant `now`. */
  function CalculateActiveContexts(contexts: seq<Contexts.Context>, now: Instant): (r: seq<Contexts.Context>)
    ensures |r| <= |contexts|
    ensures forall c :: c in r <==> c in contexts && Contexts.IsActive(c, now)
    ensures IsSubsequence(r, contexts)
  {
    if contexts == [] then []
    else
      var rest := CalculateActiveContexts(contexts[1..], now);
      assert contexts == [contexts[0]] + contexts[1..];
      if Keeps(contexts[0], now) then
        assert ([contexts[0]] + rest)[1..] == rest;
        [contexts[0]] + rest
      else
        rest
  }

  /** The client-side result equals the server's `getActiveContexts` on the same list and instant. */
  lemma {:induction false} SameAsServer(contexts: seq<Contexts.Context>, now: Instant)
    ensures CalculateActiveContexts(contexts, now) == Contexts.GetActiveContexts(contexts, now)
  {
    if contexts != [] {
      SameAsServer(contexts[1..], now);
      assert Keeps(contexts[0], now) == Contexts.IsActive(contexts[0], now);
    }
  }
}
