/** The literal scenarios of the repository's test suite, stated about the
    model. Each scenario is split into its sanitizing step and its walk,
    and the two are joined by a lemma about the public operation. */
module LiteralCases {
  import opened Events
  import opened Sorting
  import opened Sanitize
  import opened UsageSimple
  import opened UsageForDay
  import opened EnergySavings

  function E(ts: int, state: string): RawEvent
  {
    Entry(Finite(ts), Named(state))
  }

  /** Joins a sanitized log and a walk into a single-day result. */
  lemma SimpleFrom(init: State, raws: seq<RawEvent>, v: int)
    requires init in VALID_STATES
    requires OnTime(init, SanitizeEvents(Daily, raws)) == v
    ensures CalculateEnergyUsageSimple(Profile(Named(Name(init)), Items(raws))) == Ok(v)
  {
    StateOfName(init);
  }

  /** The same, for a log whose valid events are already in order. */
  lemma {:induction false} SimpleFromOrdered(init: State, raws: seq<RawEvent>, v: int)
    requires init in VALID_STATES
    requires Sorted(Filter(Daily, raws))
    requires OnTime(init, Filter(Daily, raws)) == v
    ensures CalculateEnergyUsageSimple(Profile(Named(Name(init)), Items(raws))) == Ok(v)
  {
    InOrder(Daily, raws);
    SimpleFrom(init, raws, v);
  }

  /** Joins the steps of the day slicer into a day result. */
  lemma {:induction false} DayFrom(init: State, raws: seq<RawEvent>, n: int, carried: State, v: int)
    requires init in VALID_STATES && 1 <= n <= 365
    requires CarriedState(init, SanitizeEvents(MultipleDays, raws), DayStart(n)) == carried
    requires OnTime(carried, DayEvents(SanitizeEvents(MultipleDays, raws), n)) == v
    ensures CalculateEnergyUsageForDay(Profile(Named(Name(init)), Items(raws)), IntegerDay(n)) == Ok(v)
  {
    var p := Profile(Named(Name(init)), Items(raws));
    var sorted := SanitizeEvents(MultipleDays, raws);
    StateOfName(init);
    assert InitialOf(p, VALID_STATES) == init;
    var q := Profile(Named(Name(carried)), Items(ToRaws(DayEvents(sorted, n))));
    assert CalculateEnergyUsageForDay(p, IntegerDay(n)) == CalculateEnergyUsageSimple(q);
    DelegatedEventsPassThrough(sorted, n);
    SimpleFrom(carried, ToRaws(DayEvents(sorted, n)), v);
  }

  /** The same, for a log whose valid events are already in order. */
  lemma {:induction false} DayFromOrdered(init: State, raws: seq<RawEvent>, n: int, carried: State, v: int)
    requires init in VALID_STATES && 1 <= n <= 365
    requires Sorted(Filter(MultipleDays, raws))
    requires CarriedState(init, Filter(MultipleDays, raws), DayStart(n)) == carried
    requires OnTime(carried, DayEvents(Filter(MultipleDays, raws), n)) == v
    ensures CalculateEnergyUsageForDay(Profile(Named(Name(init)), Items(raws)), IntegerDay(n)) == Ok(v)
  {
    InOrder(MultipleDays, raws);
    DayFrom(init, raws, n, carried, v);
  }

  /** Joins an in-order valid log and a walk into a savings result. */
  lemma {:induction false} SavingsFrom(init: State, raws: seq<RawEvent>, v: int)
    requires Sorted(Filter(DailyEnergySave, raws))
    requires Savings(init, Filter(DailyEnergySave, raws)) == v
    ensures CalculateEnergySavings(Profile(Named(Name(init)), Items(raws))) == Ok(v)
  {
    InOrder(DailyEnergySave, raws);
    StateOfName(init);
  }

  /** A filtered log that is already in order is left as it is by the sort. */
  lemma InOrder(v: Variant, raws: seq<RawEvent>)
    requires Sorted(Filter(v, raws))
    ensures SanitizeEvents(v, raws) == Filter(v, raws)
  {
    SortSorted(Filter(v, raws));
  }

  /** A null timestamp and the unknown state "maybe" are removed. */
  lemma SanitizeRemovesInvalid(raws: seq<RawEvent>)
    requires raws == [Entry(NonNumeric, Named("on")), E(100, "maybe"), E(200, "off")]
    ensures SanitizeAndSortDailyEvents(raws) == [Event(200, Off)]
  {
    FilterRemovesInvalid();
    InOrder(Daily, raws);
  }

  lemma FilterRemovesInvalid()
    ensures Filter(Daily, [Entry(NonNumeric, Named("on")), E(100, "maybe"), E(200, "off")]) == [Event(200, Off)]
  {
  }

  lemma SanitizeSortsChronologically(raws: seq<RawEvent>)
    requires raws == [E(300, "on"), E(100, "off")]
    ensures SanitizeAndSortDailyEvents(raws) == [Event(100, Off), Event(300, On)]
  {
    FilterSortsChronologically();
  }

  lemma FilterSortsChronologically()
    ensures Filter(Daily, [E(300, "on"), E(100, "off")]) == [Event(300, On), Event(100, Off)]
  {
  }

  // initial on, off at 126, on at 833

  lemma FilterInitialOn()
    ensures Filter(Daily, [E(126, "off"), E(833, "on")]) == [Event(126, Off), Event(833, On)]
  {
  }

  lemma WalkInitialOn()
    ensures Sorted([Event(126, Off), Event(833, On)])
    ensures OnTime(On, [Event(126, Off), Event(833, On)]) == 733
  {
  }

  lemma InitialOnSteps(raws: seq<RawEvent>)
    requires raws == [E(126, "off"), E(833, "on")]
    ensures Sorted(Filter(Daily, raws))
    ensures OnTime(On, Filter(Daily, raws)) == 733
  {
    FilterInitialOn();
    WalkInitialOn();
  }

  lemma SimpleInitialOn(raws: seq<RawEvent>)
    requires raws == [E(126, "off"), E(833, "on")]
    ensures CalculateEnergyUsageSimple(Profile(Named("on"), Items(raws))) == Ok(126 + (1440 - 833))
  {
    InitialOnSteps(raws);
    SimpleFromOrdered(On, raws, 733);
  }

  // initial off, on at 0, off at 1439

  lemma FilterWholeDay()
    ensures Filter(Daily, [E(0, "on"), E(1439, "off")]) == [Event(0, On), Event(1439, Off)]
  {
  }

  lemma WalkWholeDay()
    ensures Sorted([Event(0, On), Event(1439, Off)])
    ensures OnTime(Off, [Event(0, On), Event(1439, Off)]) == 1439
  {
  }

  lemma WholeDaySteps(raws: seq<RawEvent>)
    requires raws == [E(0, "on"), E(1439, "off")]
    ensures Sorted(Filter(Daily, raws))
    ensures OnTime(Off, Filter(Daily, raws)) == 1439
  {
    FilterWholeDay();
    WalkWholeDay();
  }

  lemma SimpleWholeDay(raws: seq<RawEvent>)
    requires raws == [E(0, "on"), E(1439, "off")]
    ensures CalculateEnergyUsageSimple(Profile(Named("off"), Items(raws))) == Ok(1439)
  {
    WholeDaySteps(raws);
    SimpleFromOrdered(Off, raws, 1439);
  }

  // a repeated on event

  lemma FilterDuplicateOn()
    ensures Filter(Daily, [E(30, "on"), E(80, "on"), E(150, "off"), E(656, "on")])
            == [Event(30, On), Event(80, On), Event(150, Off), Event(656, On)]
  {
  }

  lemma WalkDuplicateOn()
    ensures Sorted([Event(30, On), Event(80, On), Event(150, Off), Event(656, On)])
    ensures OnTime(Off, [Event(30, On), Event(80, On), Event(150, Off), Event(656, On)]) == 904
  {
  }

  lemma DuplicateOnSteps(raws: seq<RawEvent>)
    requires raws == [E(30, "on"), E(80, "on"), E(150, "off"), E(656, "on")]
    ensures Sorted(Filter(Daily, raws))
    ensures OnTime(Off, Filter(Daily, raws)) == 904
  {
    FilterDuplicateOn();
    WalkDuplicateOn();
  }

  lemma SimpleDuplicateOn(raws: seq<RawEvent>)
    requires raws == [E(30, "on"), E(80, "on"), E(150, "off"), E(656, "on")]
    ensures CalculateEnergyUsageSimple(Profile(Named("off"), Items(raws))) == Ok(150 - 30 + (1440 - 656))
  {
    DuplicateOnSteps(raws);
    SimpleFromOrdered(Off, raws, 904);
  }

  // junk entries mixed with valid ones

  lemma FilterJunk()
    ensures Filter(Daily, [Entry(NonNumeric, Named("on")), E(50, "on"), E(100, "off"), NullEvent, NullEvent,
                           E(150, "on"), E(300, "off")])
            == [Event(50, On), Event(100, Off), Event(150, On), Event(300, Off)]
  {
  }

  lemma WalkJunk()
    ensures Sorted([Event(50, On), Event(100, Off), Event(150, On), Event(300, Off)])
    ensures OnTime(Off, [Event(50, On), Event(100, Off), Event(150, On), Event(300, Off)]) == 200
  {
  }

  lemma JunkSteps(raws: seq<RawEvent>)
    requires raws == [Entry(NonNumeric, Named("on")), E(50, "on"), E(100, "off"), NullEvent, NullEvent,
                      E(150, "on"), E(300, "off")]
    ensures Sorted(Filter(Daily, raws))
    ensures OnTime(Off, Filter(Daily, raws)) == 200
  {
    FilterJunk();
    WalkJunk();
  }

  lemma SimpleJunkIgnored(raws: seq<RawEvent>)
    requires raws == [Entry(NonNumeric, Named("on")), E(50, "on"), E(100, "off"), NullEvent, NullEvent,
                      E(150, "on"), E(300, "off")]
    ensures CalculateEnergyUsageSimple(Profile(Named("off"), Items(raws))) == Ok(100 - 50 + (300 - 150))
  {
    JunkSteps(raws);
    SimpleFromOrdered(Off, raws, 200);
  }

  // events out of chronological order

  lemma FilterUnsorted()
    ensures Filter(Daily, [E(300, "off"), E(100, "off"), E(200, "on")])
            == [Event(300, Off), Event(100, Off), Event(200, On)]
  {
  }

  lemma SortUnsorted()
    ensures InsertionSort([Event(300, Off), Event(100, Off), Event(200, On)])
            == [Event(100, Off), Event(200, On), Event(300, Off)]
  {
  }

  lemma WalkUnsorted()
    ensures OnTime(On, [Event(100, Off), Event(200, On), Event(300, Off)]) == 200
  {
  }

  lemma UnsortedSteps(raws: seq<RawEvent>)
    requires raws == [E(300, "off"), E(100, "off"), E(200, "on")]
    ensures OnTime(On, SanitizeEvents(Daily, raws)) == 200
  {
    FilterUnsorted();
    SortUnsorted();
    WalkUnsorted();
  }

  lemma SimpleUnsorted(raws: seq<RawEvent>)
    requires raws == [E(300, "off"), E(100, "off"), E(200, "on")]
    ensures CalculateEnergyUsageSimple(Profile(Named("on"), Items(raws))) == Ok(100 - 0 + (300 - 200))
  {
    UnsortedSteps(raws);
    SimpleFrom(On, raws, 200);
  }

  lemma SimpleInvalidProfile()
    ensures CalculateEnergyUsageSimple(Profile(NullState,
              Items([Entry(Finite(100), MissingState), Entry(NonNumeric, Named("off"))])))
            == Err(InvalidProfile)
  {
  }

  // initial off, a single on at minute 4500 (day 4)

  lemma FilterLateOn()
    ensures Filter(MultipleDays, [E(4500, "on")]) == [Event(4500, On)]
  {
  }

  lemma LateOnFiltered(raws: seq<RawEvent>)
    requires raws == [E(4500, "on")]
    ensures Filter(MultipleDays, raws) == [Event(4500, On)]
    ensures Sorted(Filter(MultipleDays, raws))
  {
    FilterLateOn();
  }

  lemma DayTwoSteps()
    ensures CarriedState(Off, [Event(4500, On)], DayStart(2)) == Off
    ensures DayEvents([Event(4500, On)], 2) == []
    ensures OnTime(Off, []) == 0
  {
  }

  lemma DayFourSteps()
    ensures CarriedState(Off, [Event(4500, On)], DayStart(4)) == Off
    ensures DayEvents([Event(4500, On)], 4) == [Event(180, On)]
    ensures OnTime(Off, [Event(180, On)]) == 1260
  {
  }

  lemma DayFifteenSteps()
    ensures CarriedState(Off, [Event(4500, On)], DayStart(15)) == On
    ensures DayEvents([Event(4500, On)], 15) == []
    ensures OnTime(On, []) == 1440
  {
  }

  lemma DayCarriesStateAcrossDays(raws: seq<RawEvent>)
    requires raws == [E(4500, "on")]
    ensures CalculateEnergyUsageForDay(Profile(Named("off"), Items(raws)), IntegerDay(2)) == Ok(0)
    ensures CalculateEnergyUsageForDay(Profile(Named("off"), Items(raws)), IntegerDay(4)) == Ok(1260)
    ensures CalculateEnergyUsageForDay(Profile(Named("off"), Items(raws)), IntegerDay(15)) == Ok(1440)
  {
    LateOnFiltered(raws);
    DayTwoSteps();
    DayFourSteps();
    DayFifteenSteps();
    DayFromOrdered(Off, raws, 2, Off, 0);
    DayFromOrdered(Off, raws, 4, Off, 1260);
    DayFromOrdered(Off, raws, 15, On, 1440);
  }

  lemma DayRejected(p: RawProfile)
    ensures CalculateEnergyUsageForDay(p, IntegerDay(-5)) == Err(DayOutOfRange)
    ensures CalculateEnergyUsageForDay(p, IntegerDay(0)) == Err(DayOutOfRange)
    ensures CalculateEnergyUsageForDay(p, IntegerDay(366)) == Err(DayOutOfRange)
    ensures CalculateEnergyUsageForDay(p, NonIntegerDay) == Err(DayNotInteger)
  {
  }

  // sensible energy-saver data

  function SensibleLog(): seq<Event>
  {
    [Event(100, On), Event(150, Off), Event(200, On), Event(500, AutoOff),
     Event(933, On), Event(1010, Off), Event(1250, On), Event(1320, AutoOff)]
  }

  lemma FilterSensibleMorningLiteral()
    ensures Filter(DailyEnergySave, [E(100, "on"), E(150, "off"), E(200, "on"), E(500, "auto-off")])
            == [Event(100, On), Event(150, Off), Event(200, On), Event(500, AutoOff)]
  {
  }

  lemma FilterSensibleEveningLiteral()
    ensures Filter(DailyEnergySave, [E(933, "on"), E(1010, "off"), E(1250, "on"), E(1320, "auto-off")])
            == [Event(933, On), Event(1010, Off), Event(1250, On), Event(1320, AutoOff)]
  {
  }

  lemma FilterSensibleMorning(a: seq<RawEvent>)
    requires a == [E(100, "on"), E(150, "off"), E(200, "on"), E(500, "auto-off")]
    ensures Filter(DailyEnergySave, a)
            == [Event(100, On), Event(150, Off), Event(200, On), Event(500, AutoOff)]
  {
    FilterSensibleMorningLiteral();
  }

  lemma FilterSensibleEvening(b: seq<RawEvent>)
    requires b == [E(933, "on"), E(1010, "off"), E(1250, "on"), E(1320, "auto-off")]
    ensures Filter(DailyEnergySave, b)
            == [Event(933, On), Event(1010, Off), Event(1250, On), Event(1320, AutoOff)]
  {
    FilterSensibleEveningLiteral();
  }

  lemma FilterSensible(a: seq<RawEvent>, b: seq<RawEvent>)
    requires a == [E(100, "on"), E(150, "off"), E(200, "on"), E(500, "auto-off")]
    requires b == [E(933, "on"), E(1010, "off"), E(1250, "on"), E(1320, "auto-off")]
    ensures Filter(DailyEnergySave, a + b) == SensibleLog()
  {
    FilterSensibleMorning(a);
    FilterSensibleEvening(b);
    FilterAppend(DailyEnergySave, a, b);
  }

  lemma WalkSensible()
    ensures Sorted(SensibleLog())
    ensures Savings(Off, SensibleLog()) == 553
  {
  }

  lemma SensibleSteps(a: seq<RawEvent>, b: seq<RawEvent>)
    requires a == [E(100, "on"), E(150, "off"), E(200, "on"), E(500, "auto-off")]
    requires b == [E(933, "on"), E(1010, "off"), E(1250, "on"), E(1320, "auto-off")]
    ensures Sorted(Filter(DailyEnergySave, a + b))
    ensures Savings(Off, Filter(DailyEnergySave, a + b)) == 553
  {
    FilterSensible(a, b);
    WalkSensible();
  }

  /** The log of the test suite's "sensible data" case, given as its
      morning half `a` and evening half `b`. */
  lemma SavingsSensibleData(a: seq<RawEvent>, b: seq<RawEvent>)
    requires a == [E(100, "on"), E(150, "off"), E(200, "on"), E(500, "auto-off")]
    requires b == [E(933, "on"), E(1010, "off"), E(1250, "on"), E(1320, "auto-off")]
    ensures CalculateEnergySavings(Profile(Named("off"), Items(a + b))) == Ok(933 - 500 + (1440 - 1320))
  {
    SensibleSteps(a, b);
    SavingsFrom(Off, a + b, 553);
  }

  // a manual off after auto-off is ignored

  lemma FilterOffAfterAutoOff()
    ensures Filter(DailyEnergySave, [E(250, "on"), E(299, "on"), E(320, "auto-off"), E(500, "off")])
            == [Event(250, On), Event(299, On), Event(320, AutoOff), Event(500, Off)]
  {
  }

  lemma WalkOffAfterAutoOff()
    ensures Sorted([Event(250, On), Event(299, On), Event(320, AutoOff), Event(500, Off)])
    ensures Savings(Off, [Event(250, On), Event(299, On), Event(320, AutoOff), Event(500, Off)]) == 1120
  {
  }

  lemma OffAfterAutoOffSteps(raws: seq<RawEvent>)
    requires raws == [E(250, "on"), E(299, "on"), E(320, "auto-off"), E(500, "off")]
    ensures Sorted(Filter(DailyEnergySave, raws))
    ensures Savings(Off, Filter(DailyEnergySave, raws)) == 1120
  {
    FilterOffAfterAutoOff();
    WalkOffAfterAutoOff();
  }

  lemma SavingsOffAfterAutoOffIgnored(raws: seq<RawEvent>)
    requires raws == [E(250, "on"), E(299, "on"), E(320, "auto-off"), E(500, "off")]
    ensures CalculateEnergySavings(Profile(Named("off"), Items(raws))) == Ok(1440 - 320)
  {
    OffAfterAutoOffSteps(raws);
    SavingsFrom(Off, raws, 1120);
  }

  // an auto-off while already off is ignored

  lemma FilterAutoOffWhileOff()
    ensures Filter(DailyEnergySave, [E(100, "on"), E(200, "off"), E(300, "auto-off"), E(400, "on"), E(500, "auto-off")])
            == [Event(100, On), Event(200, Off), Event(300, AutoOff), Event(400, On), Event(500, AutoOff)]
  {
  }

  lemma WalkAutoOffWhileOff()
    ensures Sorted([Event(100, On), Event(200, Off), Event(300, AutoOff), Event(400, On), Event(500, AutoOff)])
    ensures Savings(Off, [Event(100, On), Event(200, Off), Event(300, AutoOff), Event(400, On), Event(500, AutoOff)])
            == 940
  {
  }

  lemma AutoOffWhileOffSteps(raws: seq<RawEvent>)
    requires raws == [E(100, "on"), E(200, "off"), E(300, "auto-off"), E(400, "on"), E(500, "auto-off")]
    ensures Sorted(Filter(DailyEnergySave, raws))
    ensures Savings(Off, Filter(DailyEnergySave, raws)) == 940
  {
    FilterAutoOffWhileOff();
    WalkAutoOffWhileOff();
  }

  lemma SavingsAutoOffWhileOffIgnored(raws: seq<RawEvent>)
    requires raws == [E(100, "on"), E(200, "off"), E(300, "auto-off"), E(400, "on"), E(500, "auto-off")]
    ensures CalculateEnergySavings(Profile(Named("off"), Items(raws))) == Ok(1440 - 500)
  {
    AutoOffWhileOffSteps(raws);
    SavingsFrom(Off, raws, 940);
  }

  lemma SavingsEmpty()
    ensures CalculateEnergySavings(Profile(Named("on"), Items([]))) == Ok(0)
    ensures CalculateEnergySavings(Profile(Named("off"), Items([]))) == Ok(0)
    ensures CalculateEnergySavings(Profile(Named("auto-off"), Items([]))) == Ok(1440)
  {
  }

  /** Starting in auto-off, a lone off at the last minute is ignored and
      the state stays auto-off all day, yet nothing is saved; the same
      profile with no events saves the whole period. */
  lemma SavingsLeadingAutoOff()
    ensures Savings(AutoOff, [Event(1439, Off)]) == 0
    ensures Savings(AutoOff, []) == MAX_IN_PERIOD
    ensures SaveWalkAll(Start(AutoOff), [Event(1439, Off)]).state == AutoOff
  {
  }
}
