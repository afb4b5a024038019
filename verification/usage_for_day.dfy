/** The on-time of one day of a multi-day log: validate the day number and
    the profile, sanitize the whole log with the multi-day sanitizer, carry
    in the state of the last event before the day, keep the day's events
    re-based to minutes of that day, and hand them to the single-day
    calculation. */
module UsageForDay {
  import opened Events
  import opened Sorting
  import opened Sanitize
  import opened Timeline
  import opened UsageSimple

  /** The day selector as passed: an integer, or anything else. */
  datatype DayArg = IntegerDay(n: int) | NonIntegerDay

  /** First minute of day `n` (days count from 1). */
  function DayStart(n: int): int
  {
    (n - 1) * MAX_IN_PERIOD
  }

  /** The events stamped in [lo, hi), in log order. */
  function InWindow(es: seq<Event>, lo: int, hi: int): seq<Event>
    decreases |es|
  {
    if |es| == 0 then []
    else if lo <= es[0].ts < hi then [es[0]] + InWindow(es[1..], lo, hi)
    else InWindow(es[1..], lo, hi)
  }

  /** The window keeps exactly the events of the log that lie in
      [lo, hi), and keeps a sorted log sorted. */
  lemma {:induction false} InWindowFacts(es: seq<Event>, lo: int, hi: int)
    ensures forall i :: 0 <= i < |InWindow(es, lo, hi)| ==>
              lo <= InWindow(es, lo, hi)[i].ts < hi && InWindow(es, lo, hi)[i] in es
    ensures forall e :: e in es && lo <= e.ts < hi ==> e in InWindow(es, lo, hi)
    ensures Sorted(es) ==> Sorted(InWindow(es, lo, hi))
  {
    InWindowSound(es, lo, hi);
    InWindowComplete(es, lo, hi);
  }

  /** Every kept event is an event of the log inside [lo, hi), and a
      sorted log stays sorted. */
  lemma {:induction false} InWindowSound(es: seq<Event>, lo: int, hi: int)
    ensures forall i :: 0 <= i < |InWindow(es, lo, hi)| ==>
              lo <= InWindow(es, lo, hi)[i].ts < hi && InWindow(es, lo, hi)[i] in es
    ensures Sorted(es) ==> Sorted(InWindow(es, lo, hi))
    decreases |es|
  {
    if |es| > 0 {
      var rest := InWindow(es[1..], lo, hi);
      InWindowSound(es[1..], lo, hi);
      assert forall i :: 0 <= i < |rest| ==> rest[i] in es by {
        assert forall x :: x in es[1..] ==> x in es;
      }
      if Sorted(es) {
        assert Sorted(es[1..]);
        assert forall i :: 0 <= i < |rest| ==> es[0].ts <= rest[i].ts;
      }
    }
  }

  /** No event of the log that lies in [lo, hi) is dropped. */
  lemma {:induction false} InWindowComplete(es: seq<Event>, lo: int, hi: int)
    ensures forall e :: e in es && lo <= e.ts < hi ==> e in InWindow(es, lo, hi)
    decreases |es|
  {
    if |es| > 0 {
      InWindowComplete(es[1..], lo, hi);
      assert es == [es[0]] + es[1..];
    }
  }

  /** Shift every timestamp back by `d`. */
  function Rebase(es: seq<Event>, d: int): (r: seq<Event>)
    ensures |r| == |es|
    decreases |es|
  {
    if |es| == 0 then [] else [Event(es[0].ts - d, es[0].state)] + Rebase(es[1..], d)
  }

  /** Re-basing shifts each event's timestamp and keeps its state. */
  lemma {:induction false} RebaseFacts(es: seq<Event>, d: int)
    ensures forall i :: 0 <= i < |es| ==> Rebase(es, d)[i] == Event(es[i].ts - d, es[i].state)
    decreases |es|
  {
    if |es| > 0 {
      RebaseFacts(es[1..], d);
    }
  }

  /** The index of the last event (in log order) stamped before `t`, or -1
      when there is none. */
  function LastBefore(es: seq<Event>, t: int): (r: int)
    ensures -1 <= r < |es|
    ensures 0 <= r ==> es[r].ts < t
    ensures forall j :: r < j < |es| ==> t <= es[j].ts
    decreases |es|
  {
    if |es| == 0 then -1
    else if es[|es| - 1].ts < t then |es| - 1
    else LastBefore(es[..|es| - 1], t)
  }

  /** The state in force when day `dayStart` begins. */
  function CarriedState(initial: State, es: seq<Event>, dayStart: int): State
  {
    var i := LastBefore(es, dayStart);
    if i < 0 then initial else es[i].state
  }

  /** The source's backward scan for the carried-in state, with its break. */
  method CarriedStateLoop(initial: State, es: seq<Event>, dayStart: int) returns (s: State)
    ensures s == CarriedState(initial, es, dayStart)
  {
    s := initial;
    var i := |es| - 1;
    while i >= 0
      invariant -1 <= i < |es|
      invariant forall j :: i < j < |es| ==> dayStart <= es[j].ts
    {
      if es[i].ts < dayStart {
        s := es[i].state;
        break;
      }
      i := i - 1;
    }
  }

  /** The day's events, re-based to minutes of that day. */
  function DayEvents(sorted: seq<Event>, n: int): seq<Event>
  {
    Rebase(InWindow(sorted, DayStart(n), DayStart(n) + MAX_IN_PERIOD), DayStart(n))
  }

  /** The public operation. The day is checked before the profile: a
      non-integer day, then a day outside [1, 365], then a malformed
      profile are rejected, in that order. */
  function CalculateEnergyUsageForDay(p: RawProfile, day: DayArg): (r: Result<int>)
    ensures day.NonIntegerDay? ==> r == Err(DayNotInteger)
    ensures day.IntegerDay? && (day.n < 1 || day.n > 365) ==> r == Err(DayOutOfRange)
    ensures day.IntegerDay? && 1 <= day.n <= 365 ==>
              (r.Err? <==> !ProfileOk(p, VALID_STATES)) && (r.Err? ==> r.error == InvalidProfile)
    ensures r.Ok? ==> 0 <= r.value <= MAX_IN_PERIOD
  {
    if day.NonIntegerDay? then Err(DayNotInteger)
    else if day.n < 1 || day.n > 365 then Err(DayOutOfRange)
    else if !ProfileOk(p, VALID_STATES) then Err(InvalidProfile)
    else
      var sorted := SanitizeAndSortMultipleDaysEvents(p.events.items);
      var filtered := DayEvents(sorted, day.n);
      var initialState := CarriedState(InitialOf(p, VALID_STATES), sorted, DayStart(day.n));
      StateOfName(initialState);
      CalculateEnergyUsageSimple(Profile(Named(Name(initialState)), Items(ToRaws(filtered))))
  }

  /** The events handed on are valid single-day events and sorted, so the
      single-day sanitizer passes them through unchanged. */
  lemma DelegatedEventsPassThrough(sorted: seq<Event>, n: int)
    requires AllValid(MultipleDays, sorted) && Sorted(sorted)
    ensures AllValid(Daily, DayEvents(sorted, n)) && Sorted(DayEvents(sorted, n))
    ensures SanitizeEvents(Daily, ToRaws(DayEvents(sorted, n))) == DayEvents(sorted, n)
  {
    var w := InWindow(sorted, DayStart(n), DayStart(n) + MAX_IN_PERIOD);
    InWindowSound(sorted, DayStart(n), DayStart(n) + MAX_IN_PERIOD);
    RebaseFacts(w, DayStart(n));
    forall i | 0 <= i < |w|
      ensures w[i].state in VALID_STATES
    {
      var j :| 0 <= j < |sorted| && sorted[j] == w[i];
    }
    SanitizeValidSorted(Daily, DayEvents(sorted, n));
  }

  /** The carried-in state is the state the log puts in force at the
      minute before the day starts. */
  lemma {:induction false} CarriedStateIsStateAt(initial: State, es: seq<Event>, d: int)
    ensures CarriedState(initial, es, d) == StateAt(initial, es, d - 1)
    decreases |es|
  {
    if |es| > 0 {
      var front := es[..|es| - 1];
      var last := es[|es| - 1];
      assert es == front + [last];
      StateAtAppend(initial, front, [last], d - 1);
      assert [last][1..] == [];
      if last.ts >= d {
        CarriedStateIsStateAt(initial, front, d);
        assert LastBefore(es, d) == LastBefore(front, d);
        assert LastBefore(front, d) < 0 || es[LastBefore(front, d)] == front[LastBefore(front, d)];
      }
    }
  }

  lemma {:induction false} InWindowAbove(es: seq<Event>, lo: int, hi: int)
    requires forall i :: 0 <= i < |es| ==> hi <= es[i].ts
    ensures InWindow(es, lo, hi) == []
    decreases |es|
  {
    if |es| > 0 {
      InWindowAbove(es[1..], lo, hi);
    }
  }

  /** Inside the day, the state the whole log puts in force equals the
      state the day's re-based events put in force from the carried-in
      state. */
  lemma {:induction false} WindowStateAt(initial: State, es: seq<Event>, d: int, t: int)
    requires Sorted(es) && d <= t < d + MAX_IN_PERIOD
    ensures StateAt(initial, es, t)
            == StateAt(StateAt(initial, es, d - 1), Rebase(InWindow(es, d, d + MAX_IN_PERIOD), d), t - d)
    decreases |es|, 1
  {
    if |es| > 0 {
      var e := es[0];
      var rest := es[1..];
      var hi := d + MAX_IN_PERIOD;
      assert Sorted(rest);
      if e.ts >= hi {
        StateAtBeforeAll(initial, es, t);
        StateAtBeforeAll(initial, es, d - 1);
        InWindowAbove(es, d, hi);
      } else if e.ts >= d {
        WindowHeadInside(initial, es, d, t);
      } else {
        assert StateAt(initial, es, t) == StateAt(e.state, rest, t);
        assert StateAt(initial, es, d - 1) == StateAt(e.state, rest, d - 1);
        assert InWindow(es, d, hi) == InWindow(rest, d, hi);
        WindowStateAt(e.state, rest, d, t);
      }
    }
  }

  lemma {:induction false} WindowHeadInside(initial: State, es: seq<Event>, d: int, t: int)
    requires Sorted(es) && d <= t < d + MAX_IN_PERIOD
    requires |es| > 0 && d <= es[0].ts < d + MAX_IN_PERIOD
    ensures StateAt(initial, es, t)
            == StateAt(StateAt(initial, es, d - 1), Rebase(InWindow(es, d, d + MAX_IN_PERIOD), d), t - d)
    decreases |es|, 0
  {
    var e := es[0];
    var rest := es[1..];
    var hi := d + MAX_IN_PERIOD;
    assert Sorted(rest);
    var s1 := if e.ts <= t then e.state else initial;
    assert StateAt(initial, es, t) == StateAt(s1, rest, t);
    StateAtBeforeAll(initial, es, d - 1);
    StateAtBeforeAll(s1, rest, d - 1);
    WindowStateAt(s1, rest, d, t);
    var r := Rebase(InWindow(rest, d, hi), d);
    assert InWindow(es, d, hi) == [e] + InWindow(rest, d, hi);
    assert Rebase([e] + InWindow(rest, d, hi), d) == [Event(e.ts - d, e.state)] + r by {
      assert ([e] + InWindow(rest, d, hi))[1..] == InWindow(rest, d, hi);
    }
    assert ([Event(e.ts - d, e.state)] + r)[1..] == r;
    assert StateAt(initial, [Event(e.ts - d, e.state)] + r, t - d) == StateAt(s1, r, t - d);
  }

  /** Counting the day's on-minutes either way gives the same number. */
  lemma {:induction false} DayOnMinutes(initial: State, es: seq<Event>, d: int, lo: int, hi: int)
    requires Sorted(es) && 0 <= lo <= hi <= MAX_IN_PERIOD
    ensures OnMinutes(initial, es, d + lo, d + hi)
            == OnMinutes(StateAt(initial, es, d - 1), Rebase(InWindow(es, d, d + MAX_IN_PERIOD), d), lo, hi)
    decreases hi - lo
  {
    if lo < hi {
      DayOnMinutes(initial, es, d, lo, hi - 1);
      WindowStateAt(initial, es, d, d + hi - 1);
    }
  }

  lemma DayOnMinutesWhole(initial: State, es: seq<Event>, d: int)
    requires Sorted(es)
    ensures OnMinutes(initial, es, d, d + MAX_IN_PERIOD)
            == OnMinutes(StateAt(initial, es, d - 1), Rebase(InWindow(es, d, d + MAX_IN_PERIOD), d), 0, MAX_IN_PERIOD)
  {
    DayOnMinutes(initial, es, d, 0, MAX_IN_PERIOD);
    assert d + 0 == d;
  }

  /** The day's on-minutes in the whole log are the on-minutes of the
      day's re-based events, starting from the carried-in state. */
  lemma DayOnMinutesCarried(initial: State, es: seq<Event>, n: int)
    requires Sorted(es)
    ensures OnMinutes(initial, es, DayStart(n), DayStart(n) + MAX_IN_PERIOD)
            == OnMinutes(CarriedState(initial, es, DayStart(n)), DayEvents(es, n), 0, MAX_IN_PERIOD)
  {
    var d := DayStart(n);
    assert Rebase(InWindow(es, d, d + MAX_IN_PERIOD), d) == DayEvents(es, n);
    DayOnMinutesWhole(initial, es, d);
    CarriedStateIsStateAt(initial, es, d);
  }

  /** The single-day calculation, handed the day's re-based events and the
      carried-in state, counts the on-minutes of the day in the whole log. */
  lemma DelegatedCounts(initial: State, sorted: seq<Event>, n: int)
    requires initial in VALID_STATES && AllValid(MultipleDays, sorted) && Sorted(sorted)
    ensures CalculateEnergyUsageSimple(
              Profile(Named(Name(CarriedState(initial, sorted, DayStart(n)))), Items(ToRaws(DayEvents(sorted, n)))))
            == Ok(OnMinutes(initial, sorted, DayStart(n), DayStart(n) + MAX_IN_PERIOD))
  {
    var d := DayStart(n);
    var c := CarriedState(initial, sorted, d);
    var w := DayEvents(sorted, n);
    var q := Profile(Named(Name(c)), Items(ToRaws(w)));
    StateOfName(c);
    DelegatedEventsPassThrough(sorted, n);
    UsageSimpleCountsOnMinutes(q);
    DayOnMinutesCarried(initial, sorted, n);
  }

  /** What the result means: the minutes of day `n` at which the appliance
      is on, by the reference semantics of the whole sanitized log. */
  lemma UsageForDayCountsOnMinutes(p: RawProfile, n: int)
    requires ProfileOk(p, VALID_STATES) && 1 <= n <= 365
    ensures CalculateEnergyUsageForDay(p, IntegerDay(n))
            == Ok(OnMinutes(InitialOf(p, VALID_STATES), SanitizeEvents(MultipleDays, p.events.items),
                            DayStart(n), DayStart(n) + MAX_IN_PERIOD))
  {
    DelegatedCounts(InitialOf(p, VALID_STATES), SanitizeEvents(MultipleDays, p.events.items), n);
  }

  /** With an empty log every valid day keeps the initial state throughout. */
  lemma EmptyLogEveryDay(initial: RawState, n: int)
    requires ProfileOk(Profile(initial, Items([])), VALID_STATES) && 1 <= n <= 365
    ensures CalculateEnergyUsageForDay(Profile(initial, Items([])), IntegerDay(n))
            == Ok(if initial == Named("on") then MAX_IN_PERIOD else 0)
  {
    var p := Profile(initial, Items([]));
    UsageForDayCountsOnMinutes(p, n);
    OnMinutesBeforeAll(InitialOf(p, VALID_STATES), [], DayStart(n), DayStart(n) + MAX_IN_PERIOD);
  }
}
