/**
 * The model used for drift detection in the cycle time of a process: the
 * time-windowed event container compared by the detector, the drift records it
 * emits, and the tree of causes that explains a confirmed drift.
 *
 * Timestamps and durations are whole seconds; p-values and significance levels
 * are reals. The two-sample test behind `StatisticallyEquals` is a parameter.
 */
module DriftModel {
  import opened Wrappers
  import opened Events

  // ---------------------------------------------------------------------------
  // The window filter that pruning applies
  // ---------------------------------------------------------------------------

  /**
   * An event lies strictly inside the window from `lo` to `hi`: it starts after
   * `lo` and ends before `hi`. Both bounds are exclusive.
   */
  predicate Inside(e: Event, lo: int, hi: int) {
    lo < e.start && e.end < hi
  }

  /**
   * The events of `s` that lie strictly inside the window, in their original
   * order: the order-preserving filter of `s` by Inside.
   */
  function Retain(s: seq<Event>, lo: int, hi: int): (r: seq<Event>)
    ensures |r| <= |s|
    ensures forall e :: e in r <==> e in s && Inside(e, lo, hi)
  {
    if s == [] then []
    else if Inside(s[0], lo, hi) then [s[0]] + Retain(s[1..], lo, hi)
    else Retain(s[1..], lo, hi)
  }

  /** Filtering distributes over concatenation, so relative order is kept. */
  lemma {:induction false} RetainAppend(a: seq<Event>, b: seq<Event>, lo: int, hi: int)
    ensures Retain(a + b, lo, hi) == Retain(a, lo, hi) + Retain(b, lo, hi)
  {
    if a == [] {
      assert a + b == b;
    } else {
      assert (a + b)[0] == a[0];
      assert (a + b)[1..] == a[1..] + b;
      RetainAppend(a[1..], b, lo, hi);
    }
  }

  /** Filtering one more element of a sequence extends the filtered prefix by at most that element. */
  lemma RetainPrefix(s: seq<Event>, i: nat, lo: int, hi: int)
    requires i < |s|
    ensures Retain(s[..i + 1], lo, hi)
            == Retain(s[..i], lo, hi) + (if Inside(s[i], lo, hi) then [s[i]] else [])
  {
    assert s[..i + 1] == s[..i] + [s[i]];
    RetainAppend(s[..i], [s[i]], lo, hi);
    assert Retain([s[i]], lo, hi) == (if Inside(s[i], lo, hi) then [s[i]] else []) by {
      assert [s[i]][1..] == [];
    }
  }

  /** A sequence whose every event lies inside the window is left as it is. */
  lemma {:induction false} RetainAllInside(s: seq<Event>, lo: int, hi: int)
    requires forall e :: e in s ==> Inside(e, lo, hi)
    ensures Retain(s, lo, hi) == s
  {
    if s != [] {
      assert s[0] in s;
      RetainAllInside(s[1..], lo, hi);
    }
  }

  /** The larger of two instants. */
  function Max(a: int, b: int): int {
    if a < b then b else a
  }

  /** The smaller of two instants. */
  function Min(a: int, b: int): int {
    if a < b then a else b
  }

  /**
   * Filtering by one window and then by another is the same as filtering by
   * their intersection: this covers a window that moves forward as well as one
   * nested in the first.
   */
  lemma {:induction false} RetainTwice(s: seq<Event>, lo: int, hi: int, lo': int, hi': int)
    ensures Retain(Retain(s, lo, hi), lo', hi') == Retain(s, Max(lo, lo'), Min(hi, hi'))
  {
    if s != [] {
      RetainTwice(s[1..], lo, hi, lo', hi');
    }
  }

  /** Pruning is idempotent: filtering twice by one window equals filtering once. */
  lemma {:induction false} RetainIdempotent(s: seq<Event>, lo: int, hi: int)
    ensures Retain(Retain(s, lo, hi), lo, hi) == Retain(s, lo, hi)
  {
    RetainTwice(s, lo, hi, lo, hi);
  }

  /** Filtering a sorted event sequence leaves it sorted. */
  lemma {:induction false} RetainOrdered(s: seq<Event>, lo: int, hi: int)
    requires Ordered(s)
    ensures Ordered(Retain(s, lo, hi))
  {
    if s != [] {
      RetainOrdered(s[1..], lo, hi);
      var rest := Retain(s[1..], lo, hi);
      if Inside(s[0], lo, hi) {
        forall j | 0 <= j < |rest|
          ensures Precedes(s[0], rest[j])
        {
          assert rest[j] in s[1..];
        }
      }
    }
  }

  /** The cycle times of a sequence of events, in the same order. */
  function CycleTimes(s: seq<Event>): (r: seq<int>)
    ensures |r| == |s|
    ensures forall i :: 0 <= i < |s| ==> r[i] == s[i].end - s[i].start
  {
    seq(|s|, i requires 0 <= i < |s| => s[i].CycleTime())
  }

  // ---------------------------------------------------------------------------
  // The time-windowed event container
  // ---------------------------------------------------------------------------

  /**
   * A bag of events restricted to a time window: the reference window or the
   * running window of the detector. Events are kept in arrival order.
   */
  class Model {
    /** The instant the window starts. */
    var start: int
    /** The instant the window ends: its start plus the window length. */
    var end: int
    /** The events of the model, in the order they were added. */
    var data: seq<Event>

    /** A model over the window of the given length starting at `start`, holding no events. */
    constructor (start: int, length: int)
      ensures this.start == start && end == start + length
      ensures data == [] && IsEmpty()
    {
      this.start := start;
      end := start + length;
      data := [];
    }

    /** The model holds no event. */
    function IsEmpty(): (r: bool)
      reads this
      ensures r <==> |data| == 0
    {
      data == []
    }

    /**
     * Drops every event that does not lie strictly inside the window, keeping
     * the others in order. The window itself does not change.
     */
    method Prune()
      modifies this
      ensures start == old(start) && end == old(end)
      ensures data == Retain(old(data), start, end)
      ensures |data| <= |old(data)|
      ensures forall e :: e in data ==> start < e.start && e.end < end
    {
      var events, lo, hi := data, start, end;
      var kept: seq<Event> := [];
      var i := 0;
      while i < |events|
        invariant 0 <= i <= |events|
        invariant kept == Retain(events[..i], lo, hi)
        invariant start == lo && end == hi
      {
        RetainPrefix(events, i, lo, hi);
        if lo < events[i].start && events[i].end < hi {
          kept := kept + [events[i]];
        }
        i := i + 1;
      }
      assert events[..i] == events;
      data := kept;
    }

    /** Appends an event, after every event already held; nothing is filtered. */
    method Add(event: Event)
      modifies this
      ensures start == old(start) && end == old(end)
      ensures data == old(data) + [event]
      ensures |data| == |old(data)| + 1 && data[..|old(data)|] == old(data)
      ensures !IsEmpty()
    {
      data := data + [event];
    }

    /** The significance level the comparison uses unless another is given. */
    static const DEFAULT_SIGNIFICANCE: real := 0.05

    /**
     * Whether the two models have equally distributed cycle times. `pValue`
     * is the two-sample test applied to the two cycle-time samples. When
     * either model is empty the answer is true without consulting the test;
     * otherwise it is true exactly when the p-value reaches `significance`.
     */
    function StatisticallyEquals(other: Model, significance: real, pValue: (seq<int>, seq<int>) -> real): (r: bool)
      reads this, other
      ensures IsEmpty() || other.IsEmpty() ==> r
      ensures !IsEmpty() && !other.IsEmpty() ==>
                (r <==> pValue(CycleTimes(data), CycleTimes(other.data)) >= significance)
    {
      if |data| > 0 && |other.data| > 0 then
        pValue(CycleTimes(data), CycleTimes(other.data)) >= significance
      else
        true
    }

    /**
     * The event was enabled after the window starts, ended before the window
     * ends, and was enabled before it ended. The enablement time must be known.
     */
    function Envelopes(event: Event): (r: bool)
      requires event.enabled.Some?
      reads this
      ensures r <==> start < event.enabled.value && event.enabled.value < event.end && event.end < end
    {
      start < event.enabled.value < event.end < end
    }

    /**
     * Moves the window to start at `start` with the given length, then prunes:
     * exactly the old events strictly inside the new window remain, in order.
     */
    method UpdateTimeframe(start: int, length: int)
      modifies this
      ensures this.start == start && end == start + length
      ensures data == Retain(old(data), start, start + length)
    {
      this.start := start;
      end := start + length;
      Prune();
    }

    /** The instant lies after the end of the window; the end itself does not count. */
    function Completed(instant: int): (r: bool)
      reads this
      ensures r <==> end < instant
    {
      instant > end
    }
  }

  // ---------------------------------------------------------------------------
  // Facts about the container's operations
  // ---------------------------------------------------------------------------

  /**
   * An event the model envelopes, enabled no later than it started, is one
   * that pruning keeps.
   */
  lemma EnvelopedSurvivesPrune(m: Model, e: Event)
    requires e.enabled.Some? && e.enabled.value <= e.start
    requires m.Envelopes(e)
    ensures Inside(e, m.start, m.end)
  {
  }

  /**
   * Enveloping does not imply surviving the prune when the event started
   * before it was enabled: the window test uses the enablement time, pruning
   * the start time.
   */
  lemma EnvelopedButPruned(m: Model)
    requires m.start == 1 && m.end == 10
    ensures var e := Event("c", "a", 0, 5, Some(2), None);
            m.Envelopes(e) && !Inside(e, m.start, m.end)
  {
  }

  /**
   * An event ending at or after an instant the model has completed lies
   * outside the window, so pruning drops it.
   */
  lemma CompletedExcludes(m: Model, instant: int, e: Event)
    requires m.Completed(instant) && instant <= e.end
    ensures !Inside(e, m.start, m.end)
  {
  }

  /**
   * The answer of the test only matters when both models hold events, and for
   * a test whose p-value does not depend on the order of its two samples (as
   * for the two-sample Kolmogorov-Smirnov test) the comparison is symmetric.
   */
  lemma StatisticallyEqualsSymmetric(a: Model, b: Model, significance: real, pValue: (seq<int>, seq<int>) -> real)
    requires pValue(CycleTimes(a.data), CycleTimes(b.data)) == pValue(CycleTimes(b.data), CycleTimes(a.data))
    ensures a.StatisticallyEquals(b, significance, pValue) == b.StatisticallyEquals(a, significance, pValue)
  {
  }

  /** Lowering the significance level never turns "equal" into "different". */
  lemma StatisticallyEqualsMonotone(a: Model, b: Model, s: real, s': real, pValue: (seq<int>, seq<int>) -> real)
    requires s' <= s
    requires a.StatisticallyEquals(b, s, pValue)
    ensures a.StatisticallyEquals(b, s', pValue)
  {
  }

  // ---------------------------------------------------------------------------
  // Drift records
  // ---------------------------------------------------------------------------

  /** The drift level: no drift, drift warning or confirmed drift. */
  datatype DriftLevel = NoDrift | Warning | Confirmed
  {
    /** The numeric value of the level. */
    function Value(): (v: nat)
      ensures v < 3
    {
      match this
      case NoDrift => 0
      case Warning => 1
      case Confirmed => 2
    }
  }

  /** The level with the given numeric value, if there is one. */
  function LevelOf(v: nat): (r: Option<DriftLevel>)
    ensures r.Some? <==> v < 3
    ensures r.Some? ==> r.value.Value() == v
  {
    if v == 0 then Some(NoDrift)
    else if v == 1 then Some(Warning)
    else if v == 2 then Some(Confirmed)
    else None
  }

  /** The levels are numbered NONE 0, WARNING 1 and CONFIRMED 2, in increasing order. */
  lemma LevelNumbering()
    ensures NoDrift.Value() == 0 && Warning.Value() == 1 && Confirmed.Value() == 2
    ensures NoDrift.Value() < Warning.Value() < Confirmed.Value()
  {
  }

  /** The three levels are distinct and are numbered 0, 1 and 2 in order. */
  lemma LevelValueRoundTrip(l: DriftLevel)
    ensures LevelOf(l.Value()) == Some(l)
  {
  }

  /**
   * A drift, with its level and the models that led to its detection, and the
   * drift that raised the first warning of its episode.
   */
  datatype Drift = Drift(
    level: DriftLevel,
    referenceModel: Model?,
    runningModel: Model?,
    firstWarning: Option<Drift>)

  /** The drift meaning "no drift": level NoDrift, no models, no first warning. */
  const NO_DRIFT: Drift := Drift(NoDrift, null, null, None)

  /** NO_DRIFT carries no models and no first warning. */
  lemma NoDriftIsBare()
    ensures NO_DRIFT.level == NoDrift && NO_DRIFT.level.Value() == 0
    ensures NO_DRIFT.referenceModel == null && NO_DRIFT.runningModel == null
    ensures NO_DRIFT.firstWarning == None
  {
  }

  // ---------------------------------------------------------------------------
  // The tree of drift causes
  // ---------------------------------------------------------------------------

  /** A before/after pair: the reference value and the running value. */
  datatype Pair<T> = Pair(reference: T, running: T)

  /**
   * A node of the tree explaining a drift: what was measured, how it changed,
   * the data the change was computed from, and the sub-causes it owns.
   */
  datatype DriftCause<H, D> = DriftCause(
    what: string,
    how: Pair<H>,
    data: Pair<D>,
    children: seq<DriftCause<H, D>>)

  /**
   * A new cause node. Children are attached only when a non-empty list of
   * them is given; without them the node is a leaf.
   */
  function NewCause<H, D>(what: string, how: Pair<H>, data: Pair<D>, children: Option<seq<DriftCause<H, D>>>): (r: DriftCause<H, D>)
    ensures r.what == what && r.how == how && r.data == data
    ensures r.children == (if children.Some? then children.value else [])
  {
    var attached := if children.Some? && |children.value| > 0 then children.value else [];
    DriftCause(what, how, data, attached)
  }

  /** Gives `parent` the new child `child`, after its existing children. */
  function Attach<H, D>(parent: DriftCause<H, D>, child: DriftCause<H, D>): (r: DriftCause<H, D>)
    ensures r.what == parent.what && r.how == parent.how && r.data == parent.data
    ensures r.children == parent.children + [child]
  {
    parent.(children := parent.children + [child])
  }

  /** The number of nodes of a cause tree. */
  function Size<H, D>(c: DriftCause<H, D>): (n: nat)
    ensures n >= 1
    decreases c, 1
  {
    1 + TotalSize(c.children)
  }

  /** The number of nodes of a list of cause trees. */
  function TotalSize<H, D>(cs: seq<DriftCause<H, D>>): (n: nat)
    ensures n >= |cs|
    decreases cs, 0
  {
    if cs == [] then 0 else Size(cs[0]) + TotalSize(cs[1..])
  }

  /** The trees of a concatenation have as many nodes as the two lists together. */
  lemma {:induction false} TotalSizeAppend<H, D>(a: seq<DriftCause<H, D>>, b: seq<DriftCause<H, D>>)
    ensures TotalSize(a + b) == TotalSize(a) + TotalSize(b)
  {
    if a == [] {
      assert a + b == b;
    } else {
      assert (a + b)[0] == a[0];
      assert (a + b)[1..] == a[1..] + b;
      TotalSizeAppend(a[1..], b);
    }
  }

  /**
   * Attaching a subtree adds exactly its nodes to the parent tree: children
   * are owned by one parent and never shared.
   */
  lemma SizeAttach<H, D>(parent: DriftCause<H, D>, child: DriftCause<H, D>)
    ensures Size(Attach(parent, child)) == Size(parent) + Size(child)
  {
    TotalSizeAppend(parent.children, [child]);
    assert TotalSize([child]) == Size(child) + TotalSize<H, D>([]);
  }
}
