/** The energy-savings calculation: a three-state walk (on, off,
    auto-off) over the energy-saver sanitized events that adds up the
    length of auto-off windows. A window opens only when auto-off arrives
    while the appliance is on, a manual off during auto-off is ignored,
    a window closes at the next on, and a window still open at the end of
    the period closes there. An empty log that starts in auto-off saves
    the whole period. */
module EnergySavings {
  import opened Events
  import opened Sorting
  import opened Sanitize

  /** The loop variables of the walk; `autoOffStart` is `None` when no
      window is open. */
  datatype SaveWalk = SaveWalk(state: State, autoOffStart: Option<int>, totalSaved: int)

  /** One event, with the source's four rules applied in their order. */
  function SaveStep(w: SaveWalk, e: Event): SaveWalk
  {
    var closes := w.autoOffStart.Some? && e.state == On;
    var saved := if closes then w.totalSaved + (e.ts - w.autoOffStart.value) else w.totalSaved;
    var start := if closes then None else w.autoOffStart;
    var start' := if e.state == AutoOff && w.state == On then Some(e.ts) else start;
    if e.state == Off && w.state == AutoOff then SaveWalk(w.state, start', saved)
    else if e.state == AutoOff && w.state != On then SaveWalk(w.state, start', saved)
    else SaveWalk(e.state, start', saved)
  }

  function SaveWalkAll(w: SaveWalk, es: seq<Event>): SaveWalk
    decreases |es|
  {
    if |es| == 0 then w else SaveWalkAll(SaveStep(w, es[0]), es[1..])
  }

  /** Close a window still open at the end of the period. */
  function EndOfPeriod(w: SaveWalk): int
  {
    if w.autoOffStart.Some? then w.totalSaved + (MAX_IN_PERIOD - w.autoOffStart.value) else w.totalSaved
  }

  /** JavaScript falsiness of a nullable timestamp: `null` and `0`. */
  predicate Falsy(start: Option<int>)
  {
    start.None? || start == Some(0)
  }

  function Start(initial: State): SaveWalk
  {
    SaveWalk(initial, None, 0)
  }

  /** Savings of a sanitized log that starts in `initial` at minute 0. */
  function Savings(initial: State, es: seq<Event>): int
  {
    var w := SaveWalkAll(Start(initial), es);
    if Falsy(w.autoOffStart) && w.state == AutoOff && |es| == 0 then MAX_IN_PERIOD
    else EndOfPeriod(w)
  }

  /** The walk's invariant: an open window means the state is auto-off,
      so in particular a state of on means no window is open. */
  predicate Consistent(w: SaveWalk)
  {
    && (w.autoOffStart.Some? ==> w.state == AutoOff)
    && (w.state == On ==> w.autoOffStart.None?)
  }

  lemma {:induction false} SaveWalkKeepsConsistent(w: SaveWalk, es: seq<Event>)
    requires Consistent(w)
    ensures Consistent(SaveWalkAll(w, es))
    decreases |es|
  {
    if |es| > 0 {
      SaveWalkKeepsConsistent(SaveStep(w, es[0]), es[1..]);
    }
  }

  /** How windows open and close, one event at a time: together these
      clauses fix the step on every consistent walk. */
  lemma WindowRules(w: SaveWalk, e: Event)
    requires Consistent(w)
    ensures w.autoOffStart.None? && SaveStep(w, e).autoOffStart.Some? ==>
              w.state == On && e.state == AutoOff && SaveStep(w, e).autoOffStart == Some(e.ts)
    ensures w.autoOffStart.Some? && e.state == On ==>
              SaveStep(w, e) == SaveWalk(On, None, w.totalSaved + (e.ts - w.autoOffStart.value))
    ensures w.autoOffStart.Some? && e.state != On ==> SaveStep(w, e) == w
    ensures w.state == On && e.state == AutoOff ==>
              SaveStep(w, e) == SaveWalk(AutoOff, Some(e.ts), w.totalSaved)
    ensures w.state != On && e.state == AutoOff ==> SaveStep(w, e) == w
    ensures w.autoOffStart.None? && e.state == Off && w.state == AutoOff ==> SaveStep(w, e) == w
    ensures w.autoOffStart.None? && e.state != AutoOff && !(e.state == Off && w.state == AutoOff) ==>
              SaveStep(w, e) == SaveWalk(e.state, None, w.totalSaved)
  {
  }

  /** Saved time never exceeds the time elapsed up to minute `c`, counting
      an open window up to `c`. */
  predicate SaveBounds(w: SaveWalk, c: int)
  {
    && 0 <= w.totalSaved
    && c <= MAX_IN_PERIOD
    && (w.autoOffStart.Some? ==>
          0 <= w.autoOffStart.value <= c && w.totalSaved + (c - w.autoOffStart.value) <= c)
    && (w.autoOffStart.None? ==> w.totalSaved <= c)
  }

  lemma {:induction false} SaveWalkBounds(w: SaveWalk, c: int, es: seq<Event>)
    requires Consistent(w) && SaveBounds(w, c)
    requires Sorted(es) && NotBefore(es, c) && InPeriod(es)
    ensures 0 <= EndOfPeriod(SaveWalkAll(w, es)) <= MAX_IN_PERIOD
    decreases |es|
  {
    if |es| > 0 {
      var w1 := SaveStep(w, es[0]);
      assert SaveBounds(w1, es[0].ts);
      assert NotBefore(es[1..], es[0].ts);
      SaveWalkBounds(w1, es[0].ts, es[1..]);
    }
  }

  /** The savings of a sanitized log lie in [0, MAX_IN_PERIOD]. */
  lemma SavingsBounds(initial: State, es: seq<Event>)
    requires Sorted(es) && NotBefore(es, 0) && InPeriod(es)
    ensures 0 <= Savings(initial, es) <= MAX_IN_PERIOD
  {
    SaveWalkBounds(Start(initial), 0, es);
  }

  /** The walk written as the source's loop, with its `continue`s. */
  method SavingsLoop(initial: State, es: seq<Event>) returns (totalSaved: int)
    requires Sorted(es) && NotBefore(es, 0) && InPeriod(es)
    ensures totalSaved == Savings(initial, es)
    ensures 0 <= totalSaved <= MAX_IN_PERIOD
  {
    totalSaved := 0;
    var state := initial;
    var autoOffStart: Option<int> := None;
    var i := 0;
    while i < |es|
      invariant 0 <= i <= |es|
      invariant SaveWalkAll(SaveWalk(state, autoOffStart, totalSaved), es[i..]) == SaveWalkAll(Start(initial), es)
    {
      assert es[i..][1..] == es[i + 1..];
      var e := es[i];
      i := i + 1;
      if autoOffStart.Some? && e.state == On {
        totalSaved := totalSaved + (e.ts - autoOffStart.value);
        autoOffStart := None;
      }
      if e.state == AutoOff && state == On {
        autoOffStart := Some(e.ts);
      }
      if e.state == Off && state == AutoOff {
        continue;
      }
      if e.state == AutoOff && state != On {
        continue;
      }
      state := e.state;
    }
    if autoOffStart.Some? {
      totalSaved := totalSaved + (MAX_IN_PERIOD - autoOffStart.value);
    }
    if Falsy(autoOffStart) && state == AutoOff && |es| == 0 {
      totalSaved := MAX_IN_PERIOD;
    }
    SavingsBounds(initial, es);
  }

  lemma {:induction false} SaveWalkAppend(w: SaveWalk, a: seq<Event>, b: seq<Event>)
    ensures SaveWalkAll(w, a + b) == SaveWalkAll(SaveWalkAll(w, a), b)
    decreases |a|
  {
    if |a| == 0 {
      assert a + b == b;
    } else {
      assert (a + b)[0] == a[0];
      assert (a + b)[1..] == a[1..] + b;
      SaveWalkAppend(SaveStep(w, a[0]), a[1..], b);
    }
  }

  /** An event the walk leaves alone can be dropped from anywhere in a log
      that stays non-empty. */
  lemma IgnoredEventDropped(initial: State, a: seq<Event>, e: Event, b: seq<Event>)
    requires SaveStep(SaveWalkAll(Start(initial), a), e) == SaveWalkAll(Start(initial), a)
    requires |a + b| > 0
    ensures Savings(initial, a + [e] + b) == Savings(initial, a + b)
  {
    var w := Start(initial);
    SaveWalkAppend(w, a + [e], b);
    SaveWalkAppend(w, a, [e]);
    SaveWalkAppend(w, a, b);
    assert [e][1..] == [];
  }

  /** Auto-off arriving while the appliance is off or already in auto-off
      changes neither state nor savings. */
  lemma AutoOffIgnoredUnlessOn(initial: State, a: seq<Event>, t: int, b: seq<Event>)
    requires SaveWalkAll(Start(initial), a).state != On
    requires |a + b| > 0
    ensures Savings(initial, a + [Event(t, AutoOff)] + b) == Savings(initial, a + b)
  {
    IgnoredEventDropped(initial, a, Event(t, AutoOff), b);
  }

  /** A manual off during auto-off is ignored: the window keeps running. */
  lemma ManualOffIgnoredInAutoOff(initial: State, a: seq<Event>, t: int, b: seq<Event>)
    requires SaveWalkAll(Start(initial), a).state == AutoOff
    requires |a + b| > 0
    ensures Savings(initial, a + [Event(t, Off)] + b) == Savings(initial, a + b)
  {
    IgnoredEventDropped(initial, a, Event(t, Off), b);
  }

  /** The events of `es` stamped at or before `t`, in log order. */
  function Upto(es: seq<Event>, t: int): seq<Event>
    decreases |es|
  {
    if |es| == 0 then []
    else (if es[0].ts <= t then [es[0]] else []) + Upto(es[1..], t)
  }

  /** Reference semantics: a window is open at minute `t` when the walk
      over the events that have happened by then leaves one open. */
  predicate OpenAt(w: SaveWalk, es: seq<Event>, t: int)
  {
    SaveWalkAll(w, Upto(es, t)).autoOffStart.Some?
  }

  /** The number of minutes in [lo, hi) at which a window is open. */
  function OpenMinutes(w: SaveWalk, es: seq<Event>, lo: int, hi: int): (r: int)
    ensures 0 <= r
    ensures lo <= hi ==> r <= hi - lo
    decreases hi - lo
  {
    if hi <= lo then 0
    else OpenMinutes(w, es, lo, hi - 1) + (if OpenAt(w, es, hi - 1) then 1 else 0)
  }

  lemma {:induction false} OpenMinutesSplit(w: SaveWalk, es: seq<Event>, lo: int, mid: int, hi: int)
    requires lo <= mid <= hi
    ensures OpenMinutes(w, es, lo, hi) == OpenMinutes(w, es, lo, mid) + OpenMinutes(w, es, mid, hi)
    decreases hi - mid
  {
    if mid < hi {
      OpenMinutesSplit(w, es, lo, mid, hi - 1);
    }
  }

  lemma {:induction false} UptoBeforeAll(es: seq<Event>, t: int)
    requires forall i :: 0 <= i < |es| ==> t < es[i].ts
    ensures Upto(es, t) == []
    decreases |es|
  {
    if |es| > 0 {
      UptoBeforeAll(es[1..], t);
    }
  }

  lemma {:induction false} OpenMinutesBeforeAll(w: SaveWalk, es: seq<Event>, lo: int, hi: int)
    requires lo <= hi
    requires forall i :: 0 <= i < |es| ==> hi <= es[i].ts
    ensures OpenMinutes(w, es, lo, hi) == if w.autoOffStart.Some? then hi - lo else 0
    decreases hi - lo
  {
    if lo < hi {
      OpenMinutesBeforeAll(w, es, lo, hi - 1);
      UptoBeforeAll(es, hi - 1);
    }
  }

  lemma {:induction false} OpenMinutesAfterHead(w: SaveWalk, es: seq<Event>, lo: int, hi: int)
    requires |es| > 0 && es[0].ts <= lo
    ensures OpenMinutes(w, es, lo, hi) == OpenMinutes(SaveStep(w, es[0]), es[1..], lo, hi)
    decreases hi - lo
  {
    if lo < hi {
      OpenMinutesAfterHead(w, es, lo, hi - 1);
      assert Upto(es, hi - 1) == [es[0]] + Upto(es[1..], hi - 1);
      assert ([es[0]] + Upto(es[1..], hi - 1))[1..] == Upto(es[1..], hi - 1);
    }
  }

  /** The walk adds up exactly the minutes during which a window is open. */
  lemma {:induction false} SaveWalkIsOpenMinutes(w: SaveWalk, from: int, es: seq<Event>)
    requires Consistent(w)
    requires Sorted(es) && NotBefore(es, from) && InPeriod(es) && from <= MAX_IN_PERIOD
    requires w.autoOffStart.Some? ==> w.autoOffStart.value <= from
    ensures EndOfPeriod(SaveWalkAll(w, es))
            == w.totalSaved + (if w.autoOffStart.Some? then from - w.autoOffStart.value else 0)
               + OpenMinutes(w, es, from, MAX_IN_PERIOD)
    decreases |es|
  {
    if |es| == 0 {
      OpenMinutesBeforeAll(w, es, from, MAX_IN_PERIOD);
    } else {
      var t0 := es[0].ts;
      OpenMinutesSplit(w, es, from, t0, MAX_IN_PERIOD);
      OpenMinutesBeforeAll(w, es, from, t0);
      OpenMinutesAfterHead(w, es, t0, MAX_IN_PERIOD);
      assert NotBefore(es[1..], t0);
      SaveWalkIsOpenMinutes(SaveStep(w, es[0]), t0, es[1..]);
    }
  }

  /** The savings count the minutes of the period during which an auto-off
      window is open, except that an empty log starting in auto-off saves
      the whole period. */
  lemma {:induction false} SavingsIsOpenMinutes(initial: State, es: seq<Event>)
    requires Sorted(es) && NotBefore(es, 0) && InPeriod(es)
    ensures Savings(initial, es)
            == if |es| == 0 && initial == AutoOff then MAX_IN_PERIOD
               else OpenMinutes(Start(initial), es, 0, MAX_IN_PERIOD)
  {
    SaveWalkIsOpenMinutes(Start(initial), 0, es);
  }

  /** Starting in auto-off, no window is open before the first event, so
      with a non-empty log that leading stretch is not saved and the
      savings are just the open-window minutes; only the empty log counts
      the whole period. */
  lemma {:induction false} LeadingAutoOffNotCounted(es: seq<Event>)
    requires Sorted(es) && NotBefore(es, 0) && InPeriod(es)
    ensures |es| > 0 ==> OpenMinutes(Start(AutoOff), es, 0, es[0].ts) == 0
    ensures |es| > 0 ==> Savings(AutoOff, es) == OpenMinutes(Start(AutoOff), es, 0, MAX_IN_PERIOD)
    ensures |es| == 0 ==> Savings(AutoOff, es) == MAX_IN_PERIOD
  {
    SavingsIsOpenMinutes(AutoOff, es);
    if |es| > 0 {
      assert forall i :: 0 <= i < |es| ==> es[0].ts <= es[i].ts;
      OpenMinutesBeforeAll(Start(AutoOff), es, 0, es[0].ts);
    }
  }

  /** The public operation: a profile whose initial state is not on, off
      or auto-off, or whose events are not an array, is rejected; otherwise
      the savings of the energy-saver sanitized events. */
  function CalculateEnergySavings(p: RawProfile): (r: Result<int>)
    ensures r.Err? <==> !ProfileOk(p, VALID_STATES_ENERGY_SAVE)
    ensures r.Err? ==> r.error == InvalidProfile
    ensures r.Ok? ==> 0 <= r.value <= MAX_IN_PERIOD
  {
    if !ProfileOk(p, VALID_STATES_ENERGY_SAVE) then Err(InvalidProfile)
    else
      var sorted := SanitizeAndSortDailyEventsEnergySave(p.events.items);
      SavingsBounds(InitialOf(p, VALID_STATES_ENERGY_SAVE), sorted);
      Ok(Savings(InitialOf(p, VALID_STATES_ENERGY_SAVE), sorted))
  }

  /** What the result means, at the public boundary. */
  lemma {:induction false} SavingsCountsOpenMinutes(p: RawProfile)
    requires ProfileOk(p, VALID_STATES_ENERGY_SAVE)
    ensures CalculateEnergySavings(p)
            == Ok(if |SanitizeEvents(DailyEnergySave, p.events.items)| == 0
                     && InitialOf(p, VALID_STATES_ENERGY_SAVE) == AutoOff
                  then MAX_IN_PERIOD
                  else OpenMinutes(Start(InitialOf(p, VALID_STATES_ENERGY_SAVE)),
                                   SanitizeEvents(DailyEnergySave, p.events.items), 0, MAX_IN_PERIOD))
  {
    SavingsIsOpenMinutes(InitialOf(p, VALID_STATES_ENERGY_SAVE), SanitizeEvents(DailyEnergySave, p.events.items));
  }

  /** With no valid events the result is the whole period when starting in
      auto-off and nothing otherwise. */
  lemma NoValidEventsSavings(p: RawProfile)
    requires ProfileOk(p, VALID_STATES_ENERGY_SAVE)
    requires SanitizeEvents(DailyEnergySave, p.events.items) == []
    ensures CalculateEnergySavings(p)
            == Ok(if InitialOf(p, VALID_STATES_ENERGY_SAVE) == AutoOff then MAX_IN_PERIOD else 0)
  {
  }
}
