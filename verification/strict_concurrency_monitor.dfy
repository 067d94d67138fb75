/**
 * The strict optimistic-concurrency policy: a writer that is about to commit
 * events conflicts with history as soon as anything it has not seen was
 * committed in the meantime. No merging, no partial acceptance.
 */
module StrictConcurrencyMonitor {
  import opened Failures

  /** The fixed reason every strict conflict carries. */
  const ConflictReason: string := "Changes conflict with one or more committed events."

  /** A detected clash: a reason plus the two implicated event sequences. */
  datatype ConcurrencyConflict<E> =
    ConcurrencyConflict(reason: string, unseenEvents: seq<E>, uncommittedEvents: seq<E>)

  /**
   * Decides whether committing `uncommittedEvents` conflicts with
   * `unseenEvents`, the events committed by others since the writer loaded.
   * An absent (null) argument is an argument error, `unseenEvents` checked first.
   * Being a function of its two arguments only, it answers the same on every call.
   */
  function CheckForConflicts<E>(unseenEvents: Option<seq<E>>, uncommittedEvents: Option<seq<E>>)
    : (r: Result<seq<ConcurrencyConflict<E>>, ArgumentNull>)
    ensures unseenEvents.None? ==> r == Failure(ArgumentNull("unseenEvents"))
    ensures unseenEvents.Some? && uncommittedEvents.None? ==> r == Failure(ArgumentNull("uncommittedEvents"))
    ensures r.Success? <==> unseenEvents.Some? && uncommittedEvents.Some?
    ensures r.Success? ==> |r.value| <= 1
    ensures r.Success? ==> (r.value != [] <==> unseenEvents.value != [] && uncommittedEvents.value != [])
    ensures r.Success? ==> forall c :: c in r.value ==>
      c == ConcurrencyConflict(ConflictReason, unseenEvents.value, uncommittedEvents.value)
  {
    if unseenEvents.None? then Failure(ArgumentNull("unseenEvents"))
    else if uncommittedEvents.None? then Failure(ArgumentNull("uncommittedEvents"))
    else if |unseenEvents.value| > 0 && |uncommittedEvents.value| > 0 then
      Success([ConcurrencyConflict(ConflictReason, unseenEvents.value, uncommittedEvents.value)])
    else
      Success([])
  }

  /** Nothing committed elsewhere, or nothing to commit: never a conflict. */
  lemma NoConflictWhenEitherEmpty<E>(unseenEvents: seq<E>, uncommittedEvents: seq<E>)
    requires unseenEvents == [] || uncommittedEvents == []
    ensures CheckForConflicts(Some(unseenEvents), Some(uncommittedEvents)) == Success([])
  {
  }

  /** Both non-empty: exactly one conflict, with the fixed reason and both inputs unchanged. */
  lemma OneConflictWhenBothNonEmpty<E>(unseenEvents: seq<E>, uncommittedEvents: seq<E>)
    requires unseenEvents != [] && uncommittedEvents != []
    ensures CheckForConflicts(Some(unseenEvents), Some(uncommittedEvents))
         == Success([ConcurrencyConflict(ConflictReason, unseenEvents, uncommittedEvents)])
  {
  }

  /**
   * The verdict depends only on which inputs are empty, never on the events
   * themselves: inputs that agree on emptiness get the same number of conflicts.
   */
  lemma VerdictDependsOnlyOnEmptiness<E>(u1: seq<E>, c1: seq<E>, u2: seq<E>, c2: seq<E>)
    requires (u1 == []) == (u2 == []) && (c1 == []) == (c2 == [])
    ensures CheckForConflicts(Some(u1), Some(c1)).Success?
    ensures CheckForConflicts(Some(u2), Some(c2)).Success?
    ensures |CheckForConflicts(Some(u1), Some(c1)).value| == |CheckForConflicts(Some(u2), Some(c2)).value|
  {
  }
}
