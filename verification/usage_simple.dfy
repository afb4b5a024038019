/** The single-day on-time calculation: gate the profile, sanitize its
    events with the daily sanitizer, walk them from the initial state
    adding up the time spent on, and close an interval still open at the
    end of the period. */
module UsageSimple {
  import opened Events
  import opened Sorting
  import opened Sanitize
  import opened Timeline

  /** The loop variables of the walk. */
  datatype Walk = Walk(state: State, lastChangeTime: int, total: int)

  /** One event: skipped when it is stamped before the last change or
      repeats the current state; otherwise the stretch since the last
      change is added if the appliance was on, and the state changes. */
  function Step(w: Walk, e: Event): Walk
  {
    if e.ts < w.lastChangeTime || e.state == w.state then w
    else
      var total := if w.state == On then w.total + (e.ts - w.lastChangeTime) else w.total;
      Walk(e.state, e.ts, total)
  }

  function WalkAll(w: Walk, es: seq<Event>): Walk
    decreases |es|
  {
    if |es| == 0 then w else WalkAll(Step(w, es[0]), es[1..])
  }

  /** Close an interval still open at the end of the period. */
  function Close(w: Walk): int
  {
    if w.state == On then w.total + (MAX_IN_PERIOD - w.lastChangeTime) else w.total
  }

  /** On-time of a sanitized log that starts in `initial` at minute 0. */
  function OnTime(initial: State, es: seq<Event>): int
  {
    Close(WalkAll(Walk(initial, 0, 0), es))
  }

  predicate Bounds(w: Walk)
  {
    0 <= w.total <= w.lastChangeTime <= MAX_IN_PERIOD
  }

  /** `total <= lastChangeTime <= MAX_IN_PERIOD` is kept by every step
      whose timestamp lies in the period, whatever the order. */
  lemma {:induction false} WalkKeepsBounds(w: Walk, es: seq<Event>)
    requires Bounds(w) && InClosedPeriod(es)
    ensures Bounds(WalkAll(w, es))
    decreases |es|
  {
    if |es| > 0 {
      WalkKeepsBounds(Step(w, es[0]), es[1..]);
    }
  }

  /** The on-time of any log inside the period lies in [0, MAX_IN_PERIOD]. */
  lemma OnTimeBounds(initial: State, es: seq<Event>)
    requires InClosedPeriod(es)
    ensures 0 <= OnTime(initial, es) <= MAX_IN_PERIOD
  {
    WalkKeepsBounds(Walk(initial, 0, 0), es);
  }

  /** The walk written as the source's loop. */
  method OnTimeLoop(initial: State, es: seq<Event>) returns (total: int)
    requires InClosedPeriod(es)
    ensures total == OnTime(initial, es)
    ensures 0 <= total <= MAX_IN_PERIOD
  {
    total := 0;
    var state := initial;
    var lastChangeTime := 0;
    var i := 0;
    while i < |es|
      invariant 0 <= i <= |es|
      invariant 0 <= total <= lastChangeTime <= MAX_IN_PERIOD
      invariant WalkAll(Walk(state, lastChangeTime, total), es[i..]) == WalkAll(Walk(initial, 0, 0), es)
    {
      assert es[i..][1..] == es[i + 1..];
      var e := es[i];
      if !(e.ts < lastChangeTime || e.state == state) {
        if state == On {
          total := total + (e.ts - lastChangeTime);
        }
        state := e.state;
        lastChangeTime := e.ts;
      }
      i := i + 1;
    }
    if state == On {
      total := total + (MAX_IN_PERIOD - lastChangeTime);
    }
  }

  /** The step without the `timestamp < lastChangeTime` guard. */
  function UnguardedStep(w: Walk, e: Event): Walk
  {
    if e.state == w.state then w
    else
      var total := if w.state == On then w.total + (e.ts - w.lastChangeTime) else w.total;
      Walk(e.state, e.ts, total)
  }

  function UnguardedWalkAll(w: Walk, es: seq<Event>): Walk
    decreases |es|
  {
    if |es| == 0 then w else UnguardedWalkAll(UnguardedStep(w, es[0]), es[1..])
  }

  /** On sorted input stamped no earlier than the last change, the guard
      never fires: the walk is the unguarded walk, and it ends in the last
      event's state. */
  lemma {:induction false} WalkEndsInLastState(w: Walk, es: seq<Event>)
    requires Sorted(es) && NotBefore(es, w.lastChangeTime)
    ensures WalkAll(w, es) == UnguardedWalkAll(w, es)
    ensures WalkAll(w, es).state == StateAfter(w.state, es)
    decreases |es|
  {
    if |es| > 0 {
      var w1 := Step(w, es[0]);
      assert NotBefore(es[1..], w1.lastChangeTime);
      WalkEndsInLastState(w1, es[1..]);
    }
  }

  /** Reference on-time by segments: the time in `target` from minute
      `from` to the end of the period, when `s` holds from `from` until the
      first event and each event's state holds until the next one. Unlike
      the walk it neither skips repeated states nor checks order. */
  function Dwell(target: State, s: State, from: int, es: seq<Event>): int
    decreases |es|
  {
    if |es| == 0 then (if s == target then MAX_IN_PERIOD - from else 0)
    else (if s == target then es[0].ts - from else 0) + Dwell(target, es[0].state, es[0].ts, es[1..])
  }

  /** Moving the start of the first segment changes only that segment. */
  lemma DwellShift(target: State, s: State, a: int, b: int, es: seq<Event>)
    ensures Dwell(target, s, a, es) == (if s == target then b - a else 0) + Dwell(target, s, b, es)
  {
  }

  /** The walk computes the segment sum: skipped repeats contribute the
      same time as the segments they split. */
  lemma {:induction false} WalkIsDwell(w: Walk, es: seq<Event>)
    requires Sorted(es) && NotBefore(es, w.lastChangeTime)
    ensures Close(WalkAll(w, es)) == w.total + Dwell(On, w.state, w.lastChangeTime, es)
    decreases |es|
  {
    if |es| > 0 {
      var e := es[0];
      var w1 := Step(w, e);
      assert NotBefore(es[1..], w1.lastChangeTime);
      WalkIsDwell(w1, es[1..]);
      if e.state == w.state {
        DwellShift(On, w.state, w.lastChangeTime, e.ts, es[1..]);
      }
    }
  }

  lemma OnTimeIsDwell(initial: State, es: seq<Event>)
    requires Sorted(es) && NotBefore(es, 0)
    ensures OnTime(initial, es) == Dwell(On, initial, 0, es)
  {
    WalkIsDwell(Walk(initial, 0, 0), es);
  }

  /** The segment sum counts exactly the minutes at which the appliance is
      on, by the reference semantics of the log. */
  lemma {:induction false} DwellIsOnMinutes(s: State, from: int, es: seq<Event>)
    requires Sorted(es) && NotBefore(es, from) && InClosedPeriod(es) && from <= MAX_IN_PERIOD
    ensures Dwell(On, s, from, es) == OnMinutes(s, es, from, MAX_IN_PERIOD)
    decreases |es|
  {
    if |es| == 0 {
      OnMinutesBeforeAll(s, es, from, MAX_IN_PERIOD);
    } else {
      var t0 := es[0].ts;
      OnMinutesSplit(s, es, from, t0, MAX_IN_PERIOD);
      OnMinutesBeforeAll(s, es, from, t0);
      OnMinutesAfterHead(s, es, t0, MAX_IN_PERIOD);
      assert NotBefore(es[1..], t0);
      DwellIsOnMinutes(es[0].state, t0, es[1..]);
    }
  }

  /** The reducer counts the on-minutes of the period. */
  lemma OnTimeIsOnMinutes(initial: State, es: seq<Event>)
    requires Sorted(es) && NotBefore(es, 0) && InClosedPeriod(es)
    ensures OnTime(initial, es) == OnMinutes(initial, es, 0, MAX_IN_PERIOD)
  {
    OnTimeIsDwell(initial, es);
    DwellIsOnMinutes(initial, 0, es);
  }

  predicate TwoState(es: seq<Event>)
  {
    forall i :: 0 <= i < |es| ==> es[i].state in VALID_STATES
  }

  /** Complement: with states only on and off, time on plus time off is
      the rest of the period. */
  lemma {:induction false} Complement(s: State, from: int, es: seq<Event>)
    requires s in VALID_STATES && TwoState(es)
    ensures Dwell(On, s, from, es) + Dwell(Off, s, from, es) == MAX_IN_PERIOD - from
    decreases |es|
  {
    if |es| > 0 {
      Complement(es[0].state, es[0].ts, es[1..]);
    }
  }

  /** An event that repeats the state already in force changes nothing. */
  lemma {:induction false} RepeatIgnored(target: State, s: State, from: int, a: seq<Event>, x: int, b: seq<Event>)
    ensures Dwell(target, s, from, a + [Event(x, StateAfter(s, a))] + b) == Dwell(target, s, from, a + b)
    decreases |a|
  {
    if |a| == 0 {
      assert a + [Event(x, s)] + b == [Event(x, s)] + b;
      assert a + b == b;
      DwellShift(target, s, from, x, b);
    } else {
      assert a + [Event(x, StateAfter(s, a))] + b == [a[0]] + (a[1..] + [Event(x, StateAfter(s, a))] + b);
      assert a + b == [a[0]] + (a[1..] + b);
      assert StateAfter(s, a) == StateAfter(a[0].state, a[1..]);
      RepeatIgnored(target, a[0].state, a[0].ts, a[1..], x, b);
    }
  }

  /** Duplicate on or off events do not change the on-time. */
  lemma DuplicateEventIgnored(initial: State, a: seq<Event>, e: Event, b: seq<Event>)
    requires Sorted(a + [e] + b) && NotBefore(a + [e] + b, 0) && InClosedPeriod(a + [e] + b)
    requires e.state == StateAfter(initial, a)
    ensures OnTime(initial, a + [e] + b) == OnTime(initial, a + b)
  {
    var full := a + [e] + b;
    var short := a + b;
    assert Sorted(short) && NotBefore(short, 0) by {
      forall i | 0 <= i < |short|
        ensures short[i] == full[if i < |a| then i else i + 1]
      {
      }
    }
    OnTimeIsDwell(initial, full);
    OnTimeIsDwell(initial, short);
    RepeatIgnored(On, initial, 0, a, e.ts, b);
  }

  /** The public operation: a profile whose initial state is not on or
      off, or whose events are not an array, is rejected before anything
      is computed; otherwise the on-time of the sanitized events. */
  function CalculateEnergyUsageSimple(p: RawProfile): (r: Result<int>)
    ensures r.Err? <==> !ProfileOk(p, VALID_STATES)
    ensures r.Err? ==> r.error == InvalidProfile
    ensures r.Ok? ==> 0 <= r.value <= MAX_IN_PERIOD
  {
    if !ProfileOk(p, VALID_STATES) then Err(InvalidProfile)
    else
      var sorted := SanitizeAndSortDailyEvents(p.events.items);
      OnTimeBounds(InitialOf(p, VALID_STATES), sorted);
      Ok(OnTime(InitialOf(p, VALID_STATES), sorted))
  }

  /** What the result means: the minutes of the period at which the
      appliance is on, by the reference semantics of the sanitized log. */
  lemma UsageSimpleCountsOnMinutes(p: RawProfile)
    requires ProfileOk(p, VALID_STATES)
    ensures CalculateEnergyUsageSimple(p)
            == Ok(OnMinutes(InitialOf(p, VALID_STATES), SanitizeEvents(Daily, p.events.items), 0, MAX_IN_PERIOD))
  {
    OnTimeIsOnMinutes(InitialOf(p, VALID_STATES), SanitizeEvents(Daily, p.events.items));
  }

  /** With no valid events the appliance keeps its initial state all day. */
  lemma NoValidEvents(p: RawProfile)
    requires ProfileOk(p, VALID_STATES)
    requires SanitizeEvents(Daily, p.events.items) == []
    ensures CalculateEnergyUsageSimple(p)
            == Ok(if InitialOf(p, VALID_STATES) == On then MAX_IN_PERIOD else 0)
  {
  }

  /** Complement at the public boundary: the minutes on and the minutes
      off of a valid profile add up to the whole period. */
  lemma UsageSimpleComplement(p: RawProfile)
    requires ProfileOk(p, VALID_STATES)
    ensures CalculateEnergyUsageSimple(p).value
            + Dwell(Off, InitialOf(p, VALID_STATES), 0, SanitizeEvents(Daily, p.events.items))
            == MAX_IN_PERIOD
  {
    var es := SanitizeEvents(Daily, p.events.items);
    OnTimeIsDwell(InitialOf(p, VALID_STATES), es);
    Complement(InitialOf(p, VALID_STATES), 0, es);
  }

  /** Malformed entries anywhere in the input do not change the result. */
  lemma {:induction false} JunkDoesNotChangeUsage(initial: RawState, a: seq<RawEvent>, junk: RawEvent, b: seq<RawEvent>)
    requires Accept(Daily, junk) == None
    ensures CalculateEnergyUsageSimple(Profile(initial, Items(a + [junk] + b)))
            == CalculateEnergyUsageSimple(Profile(initial, Items(a + b)))
  {
    JunkIgnored(Daily, a, junk, b);
  }

  /** Input order among distinct timestamps does not change the result. */
  lemma OrderAcrossTimestampsDoesNotChangeUsage(initial: RawState, a: seq<RawEvent>, b: seq<RawEvent>)
    requires forall k :: WithTs(Filter(Daily, a), k) == WithTs(Filter(Daily, b), k)
    ensures CalculateEnergyUsageSimple(Profile(initial, Items(a)))
            == CalculateEnergyUsageSimple(Profile(initial, Items(b)))
  {
    SanitizeIgnoresOrderAcrossTimestamps(Daily, a, b);
  }
}
