/**
 * The process event consumed by the drift detector, and the order in which the
 * log readers deliver events.
 *
 * Timestamps and durations are whole seconds.
 */
module Events {
  import opened Wrappers

  /**
   * One executed activity instance of a case: when it was enabled (if known),
   * when it started and ended, and which resource executed it (if known).
   */
  datatype Event = Event(
    caseId: string,
    activity: string,
    start: int,
    end: int,
    enabled: Option<int>,
    resource: Option<string>)
  {
    /** The time elapsed between start and end; negative for a malformed event. */
    function CycleTime(): int {
      end - start
    }
  }

  /**
   * Ascending order on optional enablement times, a missing time sorting after
   * every present one.
   */
  predicate EnabledNoLater(a: Option<int>, b: Option<int>) {
    match a
    case None => b.None?
    case Some(x) => b.None? || x <= b.value
  }

  /**
   * The order in which a log reader sorts events: by end, then by start, then
   * by enablement time (missing enablement times last).
   */
  predicate Precedes(a: Event, b: Event) {
    || a.end < b.end
    || (a.end == b.end && a.start < b.start)
    || (a.end == b.end && a.start == b.start && EnabledNoLater(a.enabled, b.enabled))
  }

  /** An event sequence sorted by Precedes. */
  predicate Ordered(s: seq<Event>) {
    forall i, j :: 0 <= i < j < |s| ==> Precedes(s[i], s[j])
  }

  /**
   * Appending an event that no event of the sequence follows keeps a sorted
   * sequence sorted: the stream can be absorbed one event at a time.
   */
  lemma OrderedAppend(s: seq<Event>, e: Event)
    requires Ordered(s)
    requires s == [] || Precedes(s[|s| - 1], e)
    ensures Ordered(s + [e])
  {
  }
}
