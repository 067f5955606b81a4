/**
 * The client's timeline: the events of a program folded into a range map
 * from half-open time ranges to the interval that is active there. Events
 * are stably sorted by ascending priority and their intervals inserted in
 * that order, so a later insertion overwrites what it overlaps.
 */
module Timelines {
  import opened Wrappers
  import opened Intervals
  import opened Priorities
  import opened Events
  import opened EventTypes
  import opened Programs
  import opened RangeMaps
  import opened Sorting
  import opened Ids

  /** `DateTime::<Utc>::MAX_UTC`, in seconds since the epoch. */
  const MaxUtc: int := 8210298412799

  /** What the timeline stores for a range; `id` is the event's index in priority order. */
  datatype InternalInterval = InternalInterval(id: nat, priority: Priority, randomizeStart: Option<Duration>, payloads: seq<EventValuesMap>)

  datatype Timeline = Timeline(data: seq<Seg<InternalInterval>>)

  /** `Timeline::new`: nothing scheduled. */
  function NewTimeline(): (tl: Timeline)
    ensures forall t :: ValueAt(tl.data, t).None?
    ensures Valid(tl.data)
  {
    Timeline([])
  }

  /** `Option::or`. */
  function Or<T>(a: Option<T>, b: Option<T>): Option<T>
  {
    if a.Some? then a else b
  }

  /** The period an interval runs on: its own, else its event's, else its program's. */
  function ResolvedPeriod(program: ProgramContent, event: EventContent, iv: EventInterval): (r: Option<IntervalPeriod>)
    ensures iv.intervalPeriod.Some? ==> r == iv.intervalPeriod
    ensures iv.intervalPeriod.None? && event.intervalPeriod.Some? ==> r == event.intervalPeriod
    ensures iv.intervalPeriod.None? && event.intervalPeriod.None? ==> r == program.intervalPeriod
    ensures r.None? <==> iv.intervalPeriod.None? && event.intervalPeriod.None? && program.intervalPeriod.None?
  {
    Or(iv.intervalPeriod, Or(event.intervalPeriod, program.intervalPeriod))
  }

  /** The exclusive end of a period's range: `start + duration`, or `MAX_UTC` when unbounded. */
  function RangeEnd(p: IntervalPeriod): int
  {
    match p.duration
    case Some(d) => p.start + d.seconds
    case None => MaxUtc
  }

  /**
   * A period whose range can be inserted: non-empty (the range map refuses
   * empty ranges) and not past `MAX_UTC` (date arithmetic would overflow).
   */
  predicate WellTimed(p: IntervalPeriod)
  {
    p.start < RangeEnd(p) <= MaxUtc
  }

  predicate EventResolves(program: ProgramContent, e: EventContent)
  {
    forall j :: 0 <= j < |e.intervals| ==> ResolvedPeriod(program, e, e.intervals[j]).Some?
  }

  predicate EventTimed(program: ProgramContent, e: EventContent)
  {
    forall j :: 0 <= j < |e.intervals| && ResolvedPeriod(program, e, e.intervals[j]).Some? ==>
      WellTimed(ResolvedPeriod(program, e, e.intervals[j]).value)
  }

  /** Every interval of every event finds a period. */
  predicate AllResolve(program: ProgramContent, evs: seq<EventContent>)
  {
    forall i :: 0 <= i < |evs| ==> EventResolves(program, evs[i])
  }

  /** Every period that is found can be inserted. */
  predicate AllTimed(program: ProgramContent, evs: seq<EventContent>)
  {
    forall i :: 0 <= i < |evs| ==> EventTimed(program, evs[i])
  }

  /**
   * Every interval before interval `j` of event `i`, in loop order, finds
   * a period, so `from_events` reaches that interval.
   */
  predicate Reached(program: ProgramContent, evs: seq<EventContent>, i: nat, j: nat)
    requires i < |evs| && j <= |evs[i].intervals|
  {
    && (forall i' :: 0 <= i' < i ==> EventResolves(program, evs[i']))
    && (forall j' :: 0 <= j' < j ==> ResolvedPeriod(program, evs[i], evs[i].intervals[j']).Some?)
  }

  /**
   * Every period the loop of `from_events` inserts can be inserted: the
   * loop stops at the first interval without a period, so later intervals
   * are never looked at.
   */
  predicate ReachedTimed(program: ProgramContent, evs: seq<EventContent>)
  {
    forall i, j ::
      (&& 0 <= i < |evs| && 0 <= j < |evs[i].intervals| && Reached(program, evs, i, j)
       && ResolvedPeriod(program, evs[i], evs[i].intervals[j]).Some?) ==>
      WellTimed(ResolvedPeriod(program, evs[i], evs[i].intervals[j]).value)
  }

  /**
   * Where every interval finds a period, the loop reaches them all, so the
   * reached periods are well timed iff all are; and timing every period
   * always suffices.
   */
  lemma ReachedTimedIffAllTimed(program: ProgramContent, evs: seq<EventContent>)
    ensures AllTimed(program, evs) ==> ReachedTimed(program, evs)
    ensures AllResolve(program, evs) ==> (ReachedTimed(program, evs) <==> AllTimed(program, evs))
  {
    if AllTimed(program, evs) {
      forall i, j | 0 <= i < |evs| && 0 <= j < |evs[i].intervals| && ResolvedPeriod(program, evs[i], evs[i].intervals[j]).Some?
        ensures WellTimed(ResolvedPeriod(program, evs[i], evs[i].intervals[j]).value)
      {
        assert EventTimed(program, evs[i]);
      }
    }
    if AllResolve(program, evs) && ReachedTimed(program, evs) {
      forall i | 0 <= i < |evs|
        ensures EventTimed(program, evs[i])
      {
        forall j | 0 <= j < |evs[i].intervals| && ResolvedPeriod(program, evs[i], evs[i].intervals[j]).Some?
          ensures WellTimed(ResolvedPeriod(program, evs[i], evs[i].intervals[j]).value)
        {
          assert EventResolves(program, evs[i]);
          assert Reached(program, evs, i, j);
        }
      }
    }
  }

  predicate IntervalCovers(program: ProgramContent, e: EventContent, iv: EventInterval, t: int)
  {
    match ResolvedPeriod(program, e, iv)
    case None => false
    case Some(p) => p.start <= t < RangeEnd(p)
  }

  function CoveringInterval(program: ProgramContent, e: EventContent, t: int): EventInterval -> bool
  {
    (iv: EventInterval) => IntervalCovers(program, e, iv, t)
  }

  /** Some interval of the event covers `t`. */
  function CoveringEvent(program: ProgramContent, t: int): EventContent -> bool
  {
    (e: EventContent) => LastIndexWhere(e.intervals, CoveringInterval(program, e, t)).Some?
  }

  /** `sort_by_key(|e| e.priority)`: `Ord for Priority` orders exactly by `Rank`. */
  const ByPriority: EventContent -> int := (e: EventContent) => Rank(e.priority)

  function SortedEvents(events: seq<EventContent>): seq<EventContent>
  {
    SortByKey(events, ByPriority)
  }

  /** The range and stored value for one interval of the event with index `id`. */
  function SegmentOf(program: ProgramContent, id: nat, e: EventContent, iv: EventInterval): (g: Seg<InternalInterval>)
    requires ResolvedPeriod(program, e, iv).Some?
  {
    var p := ResolvedPeriod(program, e, iv).value;
    Seg(p.start, RangeEnd(p), InternalInterval(id, e.priority, p.randomizeStart, iv.payloads))
  }

  /** The range of an interval contains `t` exactly when the interval covers `t`. */
  lemma SegmentOfCovers(program: ProgramContent, id: nat, e: EventContent, iv: EventInterval, t: int)
    requires ResolvedPeriod(program, e, iv).Some?
    ensures Contains(SegmentOf(program, id, e, iv), t) <==> IntervalCovers(program, e, iv, t)
    ensures WellTimed(ResolvedPeriod(program, e, iv).value) ==> SegmentOf(program, id, e, iv).lo < SegmentOf(program, id, e, iv).hi
  {
  }

  /**
   * The segments for the intervals `ivs` of the event with index `id`, in
   * order; `None` as soon as one interval finds no period.
   */
  function EventSegments(program: ProgramContent, id: nat, e: EventContent, ivs: seq<EventInterval>): (r: Option<seq<Seg<InternalInterval>>>)
    ensures r.Some? <==> forall j :: 0 <= j < |ivs| ==> ResolvedPeriod(program, e, ivs[j]).Some?
    ensures r.Some? ==> |r.value| == |ivs|
    ensures r.Some? ==> forall j :: 0 <= j < |ivs| ==>
      ResolvedPeriod(program, e, ivs[j]).Some? && r.value[j] == SegmentOf(program, id, e, ivs[j])
  {
    if ivs == [] then Some([])
    else
      var n := |ivs| - 1;
      assert forall j :: 0 <= j < n ==> ivs[..n][j] == ivs[j];
      match EventSegments(program, id, e, ivs[..n])
      case None => None
      case Some(a) =>
        if ResolvedPeriod(program, e, ivs[n]).None? then None
        else Some(a + [SegmentOf(program, id, e, ivs[n])])
  }

  /**
   * The segments of all events, event by event, each tagged with its
   * event's index; `None` if any interval finds no period.
   */
  function Candidates(program: ProgramContent, evs: seq<EventContent>): (r: Option<seq<Seg<InternalInterval>>>)
    ensures r.Some? <==> AllResolve(program, evs)
    ensures r.Some? && AllTimed(program, evs) ==> forall k :: 0 <= k < |r.value| ==> r.value[k].lo < r.value[k].hi
  {
    if evs == [] then Some([])
    else
      var n := |evs| - 1;
      var e := evs[n];
      assert forall i :: 0 <= i < n ==> evs[..n][i] == evs[i];
      match Candidates(program, evs[..n])
      case None => None
      case Some(a) =>
        match EventSegments(program, n, e, e.intervals)
        case None => None
        case Some(b) =>
          assert AllTimed(program, evs) ==> forall j :: 0 <= j < |b| ==> b[j].lo < b[j].hi by {
            if AllTimed(program, evs) {
              assert EventTimed(program, evs[n]);
              forall j | 0 <= j < |b|
                ensures b[j].lo < b[j].hi
              {
                SegmentOfCovers(program, n, e, e.intervals[j], 0);
              }
            }
          }
          Some(a + b)
  }

  /** Sorting neither adds nor drops events, so both whole-input conditions survive it. */
  lemma SortedKeepsConditions(program: ProgramContent, events: seq<EventContent>)
    ensures AllTimed(program, SortedEvents(events)) <==> AllTimed(program, events)
    ensures AllResolve(program, SortedEvents(events)) <==> AllResolve(program, events)
  {
    SortByKeyAll(events, ByPriority, (e: EventContent) => EventTimed(program, e));
    SortByKeyAll(events, ByPriority, (e: EventContent) => EventResolves(program, e));
  }

  /**
   * `Timeline::from_events`: stably sort the events by priority, then insert
   * every interval's range in turn. The result is `None` exactly when some
   * interval finds no period on itself, its event or the program. The
   * caller either times every period or, more precisely, every period the
   * loop reaches in sorted order (the two agree by `FromEventsRequirement`).
   */
  function FromEvents(program: ProgramContent, events: seq<EventContent>): (r: Option<Timeline>)
    requires AllTimed(program, events) || ReachedTimed(program, SortedEvents(events))
    ensures r.Some? <==> AllResolve(program, events)
  {
    var sorted := SortedEvents(events);
    SortedKeepsConditions(program, events);
    ReachedTimedIffAllTimed(program, sorted);
    match Candidates(program, sorted)
    case None => None
    case Some(cs) => Some(Timeline(InsertAll([], cs)))
  }

  /**
   * The precondition of `FromEvents` is exactly "every period the loop
   * reaches is well timed"; once every interval finds a period it means
   * every period is well timed.
   */
  lemma FromEventsRequirement(program: ProgramContent, events: seq<EventContent>)
    ensures AllTimed(program, events) || ReachedTimed(program, SortedEvents(events)) <==>
      ReachedTimed(program, SortedEvents(events))
    ensures AllResolve(program, events) ==>
      (ReachedTimed(program, SortedEvents(events)) <==> AllTimed(program, events))
  {
    SortedKeepsConditions(program, events);
    ReachedTimedIffAllTimed(program, SortedEvents(events));
  }

  /** The timeline's ranges are sorted, pairwise disjoint and coalesced. */
  lemma FromEventsValid(program: ProgramContent, events: seq<EventContent>)
    requires AllTimed(program, events) && AllResolve(program, events)
    ensures Valid(FromEvents(program, events).value.data)
  {
    SortedKeepsConditions(program, events);
    InsertAllSpec([], Candidates(program, SortedEvents(events)).value);
  }

  /**
   * What the last covering interval of the last covering event of `evs`
   * stores, with that event's index in `evs`.
   */
  function Winner(program: ProgramContent, evs: seq<EventContent>, t: int): Option<Seg<InternalInterval>>
  {
    match LastIndexWhere(evs, CoveringEvent(program, t))
    case None => None
    case Some(i) =>
      var j := LastIndexWhere(evs[i].intervals, CoveringInterval(program, evs[i], t)).value;
      Some(SegmentOf(program, i, evs[i], evs[i].intervals[j]))
  }

  lemma {:induction false} EventLastCovering(program: ProgramContent, id: nat, e: EventContent, ivs: seq<EventInterval>, t: int)
    requires EventSegments(program, id, e, ivs).Some?
    ensures var li := LastIndexWhere(ivs, CoveringInterval(program, e, t));
      LastCovering(EventSegments(program, id, e, ivs).value, t) == if li.None? then None else Some(SegmentOf(program, id, e, ivs[li.value]))
  {
    if ivs != [] {
      var n := |ivs| - 1;
      var b := EventSegments(program, id, e, ivs).value;
      assert forall j :: 0 <= j < n ==> ivs[..n][j] == ivs[j];
      var a := EventSegments(program, id, e, ivs[..n]).value;
      EventLastCovering(program, id, e, ivs[..n], t);
      assert b == a + [SegmentOf(program, id, e, ivs[n])];
      assert b[..|b| - 1] == a;
      SegmentOfCovers(program, id, e, ivs[n], t);
    }
  }

  lemma CandidatesSnoc(program: ProgramContent, evs: seq<EventContent>)
    requires AllResolve(program, evs) && evs != []
    ensures var n := |evs| - 1;
      && AllResolve(program, evs[..n])
      && EventSegments(program, n, evs[n], evs[n].intervals).Some?
      && Candidates(program, evs).value == Candidates(program, evs[..n]).value + EventSegments(program, n, evs[n], evs[n].intervals).value
  {
    var n := |evs| - 1;
    assert forall i :: 0 <= i < n ==> evs[..n][i] == evs[i];
    assert EventResolves(program, evs[n]);
  }

  lemma WinnerSnoc(program: ProgramContent, evs: seq<EventContent>, t: int)
    requires evs != []
    ensures var n := |evs| - 1;
      var li := LastIndexWhere(evs[n].intervals, CoveringInterval(program, evs[n], t));
      Winner(program, evs, t) == if li.Some? then Some(SegmentOf(program, n, evs[n], evs[n].intervals[li.value])) else Winner(program, evs[..n], t)
  {
    var n := |evs| - 1;
    assert forall i :: 0 <= i < n ==> evs[..n][i] == evs[i];
  }

  /** The last candidate segment containing `t` is the winner's. */
  lemma {:induction false} CandidatesLastCovering(program: ProgramContent, evs: seq<EventContent>, t: int)
    requires AllResolve(program, evs)
    ensures LastCovering(Candidates(program, evs).value, t) == Winner(program, evs, t)
  {
    if evs != [] {
      var n := |evs| - 1;
      CandidatesSnoc(program, evs);
      CandidatesLastCovering(program, evs[..n], t);
      LastCoveringConcat(Candidates(program, evs[..n]).value, EventSegments(program, n, evs[n], evs[n].intervals).value, t);
      EventLastCovering(program, n, evs[n], evs[n].intervals, t);
      WinnerSnoc(program, evs, t);
    }
  }

  /** The value at `t` is the winner's among the events in priority order, or nothing. */
  lemma FromEventsValues(program: ProgramContent, events: seq<EventContent>, t: int)
    requires AllTimed(program, events) && AllResolve(program, events)
    ensures ValueAt(FromEvents(program, events).value.data, t) == Overlay(Winner(program, SortedEvents(events), t), None)
  {
    SortedKeepsConditions(program, events);
    var cs := Candidates(program, SortedEvents(events)).value;
    InsertAllSpec([], cs);
    CandidatesLastCovering(program, SortedEvents(events), t);
  }

  /**
   * The timeline at `t`: nothing when no interval covers `t`; otherwise
   * the value of the last covering interval of the event that
   * `BestWhere` picks (greatest priority, the latest input among equals),
   * with that event's priority and its index in priority order.
   */
  lemma FromEventsWinner(program: ProgramContent, events: seq<EventContent>, t: int)
    requires AllTimed(program, events) && AllResolve(program, events)
    ensures var w := ValueAt(FromEvents(program, events).value.data, t);
      var best := BestWhere(events, CoveringEvent(program, t), ByPriority);
      && (w.None? <==> best.None?)
      && (w.Some? ==>
        && best.Some?
        && w.value.id < |events| && SortedEvents(events)[w.value.id] == best.value
        && w.value.priority == best.value.priority
        && var j := LastIndexWhere(best.value.intervals, CoveringInterval(program, best.value, t));
           && j.Some?
           && w.value.payloads == best.value.intervals[j.value].payloads
           && w.value.randomizeStart == ResolvedPeriod(program, best.value, best.value.intervals[j.value]).value.randomizeStart)
  {
    FromEventsValues(program, events, t);
    SortedLastIsBest(events, CoveringEvent(program, t), ByPriority);
  }

  /** A lower-priority event never overwrites a higher-priority one. */
  lemma FromEventsPriorityWins(program: ProgramContent, events: seq<EventContent>, t: int, i: int)
    requires AllTimed(program, events) && AllResolve(program, events)
    requires 0 <= i < |events| && CoveringEvent(program, t)(events[i])
    ensures var w := ValueAt(FromEvents(program, events).value.data, t);
      w.Some? && Rank(events[i].priority) <= Rank(w.value.priority)
  {
    FromEventsWinner(program, events, t);
    BestWhereIsMaximal(events, CoveringEvent(program, t), ByPriority);
  }

  /**
   * Among covering events of equal priority the later input wins: the
   * winning event sits at an input position after which every covering
   * event has strictly lower priority.
   */
  lemma FromEventsLaterWins(program: ProgramContent, events: seq<EventContent>, t: int)
    requires AllTimed(program, events) && AllResolve(program, events)
    requires ValueAt(FromEvents(program, events).value.data, t).Some?
    ensures var w := ValueAt(FromEvents(program, events).value.data, t).value;
      && w.id < |SortedEvents(events)|
      && exists i :: (0 <= i < |events| && events[i] == SortedEvents(events)[w.id] && events[i].priority == w.priority
        && forall j :: i < j < |events| && CoveringEvent(program, t)(events[j]) ==> Rank(events[j].priority) < Rank(w.priority))
  {
    FromEventsWinner(program, events, t);
    BestWhereIsLast(events, CoveringEvent(program, t), ByPriority);
  }

  /** A stored range, `start..end`. */
  datatype Span = Span(start: int, end: int)

  /** What a caller sees of a stored interval. */
  datatype ActiveInterval = ActiveInterval(randomizeStart: Option<Duration>, payloads: seq<EventValuesMap>)

  function SpanOf(g: Seg<InternalInterval>): Span
  {
    Span(g.lo, g.hi)
  }

  /** `at_datetime`: the stored range containing `t` and its interval, if any. */
  function AtDatetime(tl: Timeline, t: int): (r: Option<(Span, ActiveInterval)>)
    ensures r.None? <==> forall i :: 0 <= i < |tl.data| ==> !Contains(tl.data[i], t)
    ensures r.Some? ==> exists i :: (0 <= i < |tl.data| && Contains(tl.data[i], t)
      && r.value == (SpanOf(tl.data[i]), ActiveInterval(tl.data[i].val.randomizeStart, tl.data[i].val.payloads)))
  {
    match SegmentAt(tl.data, t)
    case None => None
    case Some(g) => Some((SpanOf(g), ActiveInterval(g.val.randomizeStart, g.val.payloads)))
  }

  /**
   * On a timeline built from events, `at_datetime` finds a range exactly
   * where some interval covers `t`, and reports the winner's payloads and
   * randomisation.
   */
  lemma AtDatetimeFromEvents(program: ProgramContent, events: seq<EventContent>, t: int)
    requires AllTimed(program, events) && AllResolve(program, events)
    ensures var tl := FromEvents(program, events).value;
      var w := ValueAt(tl.data, t);
      && (AtDatetime(tl, t).Some? <==> exists i :: 0 <= i < |events| && CoveringEvent(program, t)(events[i]))
      && (AtDatetime(tl, t).Some? ==> AtDatetime(tl, t).value.1 == ActiveInterval(w.value.randomizeStart, w.value.payloads))
  {
    FromEventsWinner(program, events, t);
  }

  /** The index of the first stored range ending after `s`. */
  function FirstEndingAfter(m: seq<Seg<InternalInterval>>, s: int, k: nat): (r: Option<nat>)
    requires k <= |m|
    ensures r.Some? ==> k <= r.value < |m| && s < m[r.value].hi && forall j :: k <= j < r.value ==> m[j].hi <= s
    ensures r.None? <==> forall j :: k <= j < |m| ==> m[j].hi <= s
    decreases |m| - k
  {
    if k == |m| then None
    else if s < m[k].hi then Some(k)
    else FirstEndingAfter(m, s, k + 1)
  }

  /**
   * `overlapping(s..e).next()`: the first stored range ending after `s`,
   * provided it starts before `e`.
   */
  function FirstOverlapping(m: seq<Seg<InternalInterval>>, s: int, e: int): (r: Option<Seg<InternalInterval>>)
    ensures r.Some? ==> r.value in m && r.value.lo < e && s < r.value.hi
    ensures WellFormed(m) ==> (r.None? <==> forall j :: 0 <= j < |m| ==> !(m[j].lo < e && s < m[j].hi))
  {
    match FirstEndingAfter(m, s, 0)
    case None => None
    case Some(k) =>
      if m[k].lo < e then Some(m[k])
      else
        assert WellFormed(m) ==> forall j :: k < j < |m| ==> m[k].hi <= m[j].lo;
        None
  }

  /**
   * `next_update`: the end of the range containing `t`; else the start of
   * the first range after `t`; else nothing.
   */
  function NextUpdate(tl: Timeline, t: int): (r: Option<int>)
    requires WellFormed(tl.data)
    ensures forall i :: 0 <= i < |tl.data| && Contains(tl.data[i], t) ==> r == Some(tl.data[i].hi)
    ensures r.None? <==> forall i :: 0 <= i < |tl.data| ==> tl.data[i].hi <= t
    ensures (forall i :: 0 <= i < |tl.data| ==> !Contains(tl.data[i], t)) && r.Some? ==>
      && (exists i :: 0 <= i < |tl.data| && tl.data[i].lo == r.value)
      && t < r.value
      && forall i :: 0 <= i < |tl.data| && t < tl.data[i].lo ==> r.value <= tl.data[i].lo
  {
    match AtDatetime(tl, t)
    case Some((span, _)) =>
      assert forall i :: 0 <= i < |tl.data| && Contains(tl.data[i], t) ==> SpanOf(tl.data[i]) == span by {
        forall i | 0 <= i < |tl.data| && Contains(tl.data[i], t)
          ensures SpanOf(tl.data[i]) == span
        {
          var i' :| 0 <= i' < |tl.data| && Contains(tl.data[i'], t) && span == SpanOf(tl.data[i']);
          SegmentAtIndex(tl.data, i, t);
          SegmentAtIndex(tl.data, i', t);
        }
      }
      Some(span.end)
    case None =>
      if tl.data == [] then None
      else
        var last := tl.data[|tl.data| - 1];
        match FirstOverlapping(tl.data, t, last.hi)
        case None => None
        case Some(g) => Some(g.lo)
  }

  /** No earlier range of `m` carries the id of range `k`. */
  predicate FirstOfId(m: seq<Seg<InternalInterval>>, k: int)
    requires 0 <= k < |m|
  {
    forall j :: 0 <= j < k ==> m[j].val.id != m[k].val.id
  }

  /** The ids of the first `k` ranges of `m`. */
  function IdsBefore(m: seq<Seg<InternalInterval>>, k: nat): set<nat>
    requires k <= |m|
  {
    if k == 0 then {} else IdsBefore(m, k - 1) + {m[k - 1].val.id}
  }

  lemma {:induction false} IdsBeforeFirst(m: seq<Seg<InternalInterval>>, k: nat)
    requires k < |m|
    ensures m[k].val.id !in IdsBefore(m, k) <==> FirstOfId(m, k)
  {
    IdsBeforeMembers(m, k, m[k].val.id);
  }

  lemma {:induction false} IdsBeforeMembers(m: seq<Seg<InternalInterval>>, k: nat, x: nat)
    requires k <= |m|
    ensures x in IdsBefore(m, k) <==> exists j :: 0 <= j < k && m[j].val.id == x
  {
    if k > 0 {
      IdsBeforeMembers(m, k - 1, x);
    }
  }

  /** The item iteration yields for range `k`. */
  function IterItem(m: seq<Seg<InternalInterval>>, k: int): (Span, ActiveInterval)
    requires 0 <= k < |m|
  {
    (SpanOf(m[k]), ActiveInterval(if FirstOfId(m, k) then m[k].val.randomizeStart else None, m[k].val.payloads))
  }

  /**
   * Iterating a timeline (`Iter::next` until exhausted): the ranges in
   * order with their payloads; a range keeps its randomisation only if it
   * is the first range seen for its event, so a split event does not start
   * randomly twice.
   */
  method Iterate(tl: Timeline) returns (items: seq<(Span, ActiveInterval)>)
    ensures |items| == |tl.data|
    ensures forall k :: 0 <= k < |items| ==>
      && items[k].0 == SpanOf(tl.data[k])
      && items[k].1.payloads == tl.data[k].val.payloads
      && items[k].1.randomizeStart == (if FirstOfId(tl.data, k) then tl.data[k].val.randomizeStart else None)
  {
    var seen: set<nat> := {};
    items := [];
    var k := 0;
    while k < |tl.data|
      invariant 0 <= k <= |tl.data| && |items| == k
      invariant seen == IdsBefore(tl.data, k)
      invariant forall i :: 0 <= i < k ==> items[i] == IterItem(tl.data, i)
    {
      var g := tl.data[k];
      var first := g.val.id !in seen;
      IdsBeforeFirst(tl.data, k);
      seen := seen + {g.val.id};
      items := items + [(SpanOf(g), ActiveInterval(if first then g.val.randomizeStart else None, g.val.payloads))];
      k := k + 1;
    }
  }

  /** Each event's randomisation is kept on at most one range of the iteration. */
  lemma IterateRandomizesOnce(tl: Timeline, items: seq<(Span, ActiveInterval)>, a: int, b: int)
    requires |items| == |tl.data|
    requires forall k :: 0 <= k < |items| ==>
      items[k].1.randomizeStart == (if FirstOfId(tl.data, k) then tl.data[k].val.randomizeStart else None)
    requires 0 <= a < b < |items| && tl.data[a].val.id == tl.data[b].val.id
    ensures items[b].1.randomizeStart.None?
  {
  }

  /** One hour, in seconds. */
  const Hour: nat := 3600

  /** A price payload with one integer value. */
  function PricePayload(v: I64): seq<EventValuesMap>
  {
    [EventValuesMap(Price, [Integer(v)])]
  }

  /** An interval running from hour `a` to hour `b` after the epoch. */
  function HourInterval(id: I32, a: nat, b: nat, randomize: Option<Duration>, v: I64): EventInterval
    requires a <= b
  {
    EventInterval(id, Some(IntervalPeriod(a * Hour, Some(Duration((b - a) * Hour)), randomize)), PricePayload(v))
  }

  /**
   * The events of the randomised-start test: a top-priority event over
   * hours 5..10 given first, and an unprioritised event over hours 0..15
   * that starts at random within five hours.
   */
  function SplitEvents(pid: ProgramId): seq<EventContent>
  {
    [ WithPriority(NewEventContent(pid, [HourInterval(5, 5, 10, None, 42)]), Priorities.Max),
      NewEventContent(pid, [HourInterval(0, 0, 15, Some(Duration(5 * Hour)), 43)]) ]
  }

  /** The segments of a one-interval event are that interval's segment. */
  lemma EventSegmentsOne(program: ProgramContent, id: nat, e: EventContent, g: Seg<InternalInterval>)
    requires |e.intervals| == 1 && ResolvedPeriod(program, e, e.intervals[0]).Some?
    requires SegmentOf(program, id, e, e.intervals[0]) == g
    ensures EventSegments(program, id, e, e.intervals) == Some([g])
  {
    assert forall j :: 0 <= j < |e.intervals| ==> ResolvedPeriod(program, e, e.intervals[j]).Some?;
    var r := EventSegments(program, id, e, e.intervals);
    assert r.Some? && |r.value| == 1 && r.value[0] == g;
    assert r.value == [g];
  }

  /**
   * Building the timeline sorts the unprioritised event first (index 0), so
   * the top-priority event (index 1) splits its range in two.
   */
  lemma SplitEventsTimeline(program: ProgramContent, pid: ProgramId)
    ensures AllTimed(program, SplitEvents(pid)) && AllResolve(program, SplitEvents(pid))
    ensures FromEvents(program, SplitEvents(pid)) == Some(Timeline([
      Seg(0, 5 * Hour, InternalInterval(0, Unspecified, Some(Duration(5 * Hour)), PricePayload(43))),
      Seg(5 * Hour, 10 * Hour, InternalInterval(1, Priorities.Max, None, PricePayload(42))),
      Seg(10 * Hour, 15 * Hour, InternalInterval(0, Unspecified, Some(Duration(5 * Hour)), PricePayload(43)))]))
  {
    var evs := SplitEvents(pid);
    var low := Seg(0, 15 * Hour, InternalInterval(0, Unspecified, Some(Duration(5 * Hour)), PricePayload(43)));
    var high := Seg(5 * Hour, 10 * Hour, InternalInterval(1, Priorities.Max, None, PricePayload(42)));
    assert SortedEvents(evs) == [evs[1], evs[0]] by {
      SortTwo(evs[0], evs[1]);
    }
    TwoEventsTimeline(program, evs, evs[1], evs[0], low, high);
    InsertInside(low.val, high.val, 0, 5 * Hour, 10 * Hour, 15 * Hour);
  }

  /** The stable sort of two events: swapped exactly when the second ranks strictly lower. */
  lemma SortTwo(x: EventContent, y: EventContent)
    ensures SortedEvents([x, y]) == if ByPriority(y) < ByPriority(x) then [y, x] else [x, y]
  {
    var evs := [x, y];
    assert evs[..1] == [x] && evs[..1][..0] == [] && [x][1..] == [];
    assert SortByKey(evs[..1], ByPriority) == [x];
    assert SortedEvents(evs) == InsertByKey([x], y, ByPriority);
  }

  /**
   * A timeline built from events that sort to `[x, y]`, each with one
   * interval carrying its own period: `x`'s range inserted, then `y`'s.
   */
  lemma TwoEventsTimeline(program: ProgramContent, evs: seq<EventContent>, x: EventContent, y: EventContent, gx: Seg<InternalInterval>, gy: Seg<InternalInterval>)
    requires SortedEvents(evs) == [x, y]
    requires |x.intervals| == 1 && x.intervals[0].intervalPeriod.Some? && WellTimed(x.intervals[0].intervalPeriod.value)
    requires |y.intervals| == 1 && y.intervals[0].intervalPeriod.Some? && WellTimed(y.intervals[0].intervalPeriod.value)
    requires SegmentOf(program, 0, x, x.intervals[0]) == gx && SegmentOf(program, 1, y, y.intervals[0]) == gy
    ensures AllTimed(program, evs) && AllResolve(program, evs)
    ensures FromEvents(program, evs) == Some(Timeline(Insert(Insert([], gx.lo, gx.hi, gx.val), gy.lo, gy.hi, gy.val)))
  {
    var sorted := SortedEvents(evs);
    assert AllTimed(program, sorted) && AllResolve(program, sorted);
    SortedKeepsConditions(program, evs);
    var first := sorted[..1];
    assert first == [x] && first[..0] == [];
    CandidatesSnoc(program, sorted);
    CandidatesSnoc(program, first);
    EventSegmentsOne(program, 0, x, gx);
    EventSegmentsOne(program, 1, y, gy);
    assert Candidates(program, first[..0]) == Some([]);
    assert Candidates(program, first).value == [gx];
    assert Candidates(program, sorted).value == [gx] + [gy] == [gx, gy];
    SegmentOfCovers(program, 0, x, x.intervals[0], 0);
    SegmentOfCovers(program, 1, y, y.intervals[0], 0);
    InsertAllTwo(gx, gy);
  }

  /**
   * The events of the priority-overlap test: priority 2 over hours 0..10
   * and priority 1 over hours 5..15.
   */
  function OverlapEvents(pid: ProgramId): seq<EventContent>
  {
    [ WithPriority(NewEventContent(pid, [HourInterval(0, 0, 10, None, 42)]), Priority(Some(2))),
      WithPriority(NewEventContent(pid, [HourInterval(5, 5, 15, None, 43)]), Priority(Some(1))) ]
  }

  /**
   * The higher-priority event overwrites the lower one where they overlap,
   * in whichever order the events are given.
   */
  lemma OverlapEventsTimeline(program: ProgramContent, pid: ProgramId)
    ensures var evs := OverlapEvents(pid);
      && AllTimed(program, evs) && AllResolve(program, evs)
      && AllTimed(program, [evs[1], evs[0]]) && AllResolve(program, [evs[1], evs[0]])
      && FromEvents(program, evs) == FromEvents(program, [evs[1], evs[0]])
      && FromEvents(program, evs) == Some(Timeline([
        Seg(0, 5 * Hour, InternalInterval(0, Priority(Some(2)), None, PricePayload(42))),
        Seg(5 * Hour, 15 * Hour, InternalInterval(1, Priority(Some(1)), None, PricePayload(43)))]))
  {
    var evs := OverlapEvents(pid);
    var low := Seg(0, 10 * Hour, InternalInterval(0, Priority(Some(2)), None, PricePayload(42)));
    var high := Seg(5 * Hour, 15 * Hour, InternalInterval(1, Priority(Some(1)), None, PricePayload(43)));
    SortTwo(evs[0], evs[1]);
    SortTwo(evs[1], evs[0]);
    TwoEventsTimeline(program, evs, evs[0], evs[1], low, high);
    TwoEventsTimeline(program, [evs[1], evs[0]], evs[0], evs[1], low, high);
    InsertOverEnd(low.val, high.val, 0, 5 * Hour, 10 * Hour, 15 * Hour);
  }

  /**
   * The events of the lower-priority test: priority 1 over hours 0..10
   * and priority 2 over hours 5..15.
   */
  function UnderlapEvents(pid: ProgramId): seq<EventContent>
  {
    [ WithPriority(NewEventContent(pid, [HourInterval(0, 0, 10, None, 42)]), Priority(Some(1))),
      WithPriority(NewEventContent(pid, [HourInterval(5, 5, 15, None, 43)]), Priority(Some(2))) ]
  }

  /**
   * The lower-priority event never overwrites the higher one, in whichever
   * order the events are given; sorting puts it first, so it gets index 0.
   */
  lemma UnderlapEventsTimeline(program: ProgramContent, pid: ProgramId)
    ensures var evs := UnderlapEvents(pid);
      && AllTimed(program, evs) && AllResolve(program, evs)
      && AllTimed(program, [evs[1], evs[0]]) && AllResolve(program, [evs[1], evs[0]])
      && FromEvents(program, evs) == FromEvents(program, [evs[1], evs[0]])
      && FromEvents(program, evs) == Some(Timeline([
        Seg(0, 10 * Hour, InternalInterval(1, Priority(Some(1)), None, PricePayload(42))),
        Seg(10 * Hour, 15 * Hour, InternalInterval(0, Priority(Some(2)), None, PricePayload(43)))]))
  {
    var evs := UnderlapEvents(pid);
    var low := Seg(5 * Hour, 15 * Hour, InternalInterval(0, Priority(Some(2)), None, PricePayload(43)));
    var high := Seg(0, 10 * Hour, InternalInterval(1, Priority(Some(1)), None, PricePayload(42)));
    SortTwo(evs[0], evs[1]);
    SortTwo(evs[1], evs[0]);
    TwoEventsTimeline(program, evs, evs[1], evs[0], low, high);
    TwoEventsTimeline(program, [evs[1], evs[0]], evs[1], evs[0], low, high);
    InsertOverStart(low.val, high.val, 0, 5 * Hour, 10 * Hour, 15 * Hour);
  }

  /**
   * The loop stops at the first interval without a period: a later
   * zero-length interval, which the range map would refuse, is never
   * reached, so the input is admitted and gives `None`.
   */
  lemma StopsBeforeIllTimed(program: ProgramContent, pid: ProgramId)
    requires program.intervalPeriod.None?
    ensures var evs := [ NewEventContent(pid, [EventInterval(0, None, [])]),
                         NewEventContent(pid, [EventInterval(1, Some(IntervalPeriod(0, Some(Duration(0)), None)), [])]) ];
      && !AllTimed(program, evs)
      && ReachedTimed(program, SortedEvents(evs))
      && FromEvents(program, evs) == None
  {
    var e0 := NewEventContent(pid, [EventInterval(0, None, [])]);
    var e1 := NewEventContent(pid, [EventInterval(1, Some(IntervalPeriod(0, Some(Duration(0)), None)), [])]);
    var evs := [e0, e1];
    assert !EventTimed(program, evs[1]) by {
      assert ResolvedPeriod(program, e1, e1.intervals[0]).Some?;
    }
    SortTwo(e0, e1);
    var sorted := SortedEvents(evs);
    assert sorted == evs;
    assert !EventResolves(program, e0) by {
      assert ResolvedPeriod(program, e0, e0.intervals[0]).None?;
    }
    forall i, j | 0 <= i < |sorted| && 0 <= j < |sorted[i].intervals|
      ensures Reached(program, sorted, i, j) ==> ResolvedPeriod(program, sorted[i], sorted[i].intervals[j]).None?
    {
      if i == 1 {
        assert !Reached(program, sorted, i, j) by {
          assert !EventResolves(program, sorted[0]);
        }
      }
    }
    assert !AllResolve(program, evs);
  }

  /** The events of the same-priority test: hours 0..10 and hours 5..15, both unprioritised. */
  function SamePriorityEvents(pid: ProgramId): seq<EventContent>
  {
    [ NewEventContent(pid, [HourInterval(0, 0, 10, None, 42)]),
      NewEventContent(pid, [HourInterval(5, 5, 15, None, 43)]) ]
  }

  /** Between events of equal priority the one given last wins where they overlap. */
  lemma SamePriorityEventsTimeline(program: ProgramContent, pid: ProgramId)
    ensures var evs := SamePriorityEvents(pid);
      && AllTimed(program, evs) && AllResolve(program, evs)
      && AllTimed(program, [evs[1], evs[0]]) && AllResolve(program, [evs[1], evs[0]])
      && FromEvents(program, evs) == Some(Timeline([
        Seg(0, 5 * Hour, InternalInterval(0, Unspecified, None, PricePayload(42))),
        Seg(5 * Hour, 15 * Hour, InternalInterval(1, Unspecified, None, PricePayload(43)))]))
      && FromEvents(program, [evs[1], evs[0]]) == Some(Timeline([
        Seg(0, 10 * Hour, InternalInterval(1, Unspecified, None, PricePayload(42))),
        Seg(10 * Hour, 15 * Hour, InternalInterval(0, Unspecified, None, PricePayload(43)))]))
  {
    var evs := SamePriorityEvents(pid);
    SortTwo(evs[0], evs[1]);
    SortTwo(evs[1], evs[0]);
    var early := Seg(0, 10 * Hour, InternalInterval(0, Unspecified, None, PricePayload(42)));
    var late := Seg(5 * Hour, 15 * Hour, InternalInterval(1, Unspecified, None, PricePayload(43)));
    TwoEventsTimeline(program, evs, evs[0], evs[1], early, late);
    InsertOverEnd(early.val, late.val, 0, 5 * Hour, 10 * Hour, 15 * Hour);
    var lateFirst := Seg(5 * Hour, 15 * Hour, InternalInterval(0, Unspecified, None, PricePayload(43)));
    var earlySecond := Seg(0, 10 * Hour, InternalInterval(1, Unspecified, None, PricePayload(42)));
    TwoEventsTimeline(program, [evs[1], evs[0]], evs[1], evs[0], lateFirst, earlySecond);
    InsertOverStart(lateFirst.val, earlySecond.val, 0, 5 * Hour, 10 * Hour, 15 * Hour);
  }

  /**
   * Iterating that timeline reports the random start only on the first of
   * the two ranges the split event keeps.
   */
  method SplitEventsIterate(program: ProgramContent, pid: ProgramId) returns (items: seq<(Span, ActiveInterval)>)
    ensures items == [
      (Span(0, 5 * Hour), ActiveInterval(Some(Duration(5 * Hour)), PricePayload(43))),
      (Span(5 * Hour, 10 * Hour), ActiveInterval(None, PricePayload(42))),
      (Span(10 * Hour, 15 * Hour), ActiveInterval(None, PricePayload(43)))]
  {
    SplitEventsTimeline(program, pid);
    var tl := FromEvents(program, SplitEvents(pid)).value;
    items := Iterate(tl);
    assert FirstOfId(tl.data, 0) && FirstOfId(tl.data, 1) && !FirstOfId(tl.data, 2);
  }
}

