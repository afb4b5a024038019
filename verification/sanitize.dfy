/** The three event sanitizers: each keeps the raw events that pass its
    filter and returns them stably sorted by timestamp. They differ only in
    the accepted state set and in whether timestamps must lie inside one
    period. Malformed entries are dropped, never reported. */
module Sanitize {
  import opened Events
  import opened Sorting

  /** `DailyEnergySave` and `Daily` bound timestamps by one period;
      `MultipleDays` does not. `DailyEnergySave` also accepts `auto-off`. */
  datatype Variant = DailyEnergySave | Daily | MultipleDays

  function Accepted(v: Variant): set<State>
  {
    if v == DailyEnergySave then VALID_STATES_ENERGY_SAVE else VALID_STATES
  }

  predicate Bounded(v: Variant)
  {
    v != MultipleDays
  }

  /** What every event a sanitizer returns satisfies. */
  predicate Valid(v: Variant, e: Event)
  {
    && 0 <= e.ts
    && (Bounded(v) ==> e.ts < MAX_IN_PERIOD)
    && e.state in Accepted(v)
  }

  predicate AllValid(v: Variant, es: seq<Event>)
  {
    forall i :: 0 <= i < |es| ==> Valid(v, es[i])
  }

  /** The filter predicate of one variant, applied to one raw entry: the
      entry is present, its timestamp is a finite number in range and its
      state is accepted. */
  function Accept(v: Variant, raw: RawEvent): (r: Option<Event>)
    ensures r.Some? ==> raw == ToRaw(r.value) && Valid(v, r.value)
  {
    match raw
    case NullEvent => None
    case Entry(time, st) =>
      if time.Finite? && 0 <= time.value && (Bounded(v) ==> time.value < MAX_IN_PERIOD)
         && StateOf(st).Some? && StateOf(st).value in Accepted(v)
      then Some(Event(time.value, StateOf(st).value))
      else None
  }

  /** An entry is accepted as `e` exactly when it is the raw form of the
      valid event `e`. */
  lemma AcceptIff(v: Variant, raw: RawEvent, e: Event)
    ensures Accept(v, raw) == Some(e) <==> raw == ToRaw(e) && Valid(v, e)
  {
    if raw == ToRaw(e) {
      StateOfName(e.state);
    }
  }

  /** What one raw entry contributes to the filtered log. */
  function Kept(v: Variant, raw: RawEvent): seq<Event>
  {
    match Accept(v, raw)
    case Some(e) => [e]
    case None => []
  }

  /** The raw entries that pass the filter, in input order. */
  function Filter(v: Variant, raws: seq<RawEvent>): (r: seq<Event>)
    ensures |r| <= |raws|
  {
    if |raws| == 0 then [] else Kept(v, raws[0]) + Filter(v, raws[1..])
  }

  /** Everything the filter keeps is valid for its variant. */
  lemma {:induction false} FilterValid(v: Variant, raws: seq<RawEvent>)
    ensures AllValid(v, Filter(v, raws))
  {
    if |raws| > 0 {
      FilterValid(v, raws[1..]);
      var f := Filter(v, raws);
      var k := Kept(v, raws[0]);
      assert f == k + Filter(v, raws[1..]);
      forall i | 0 <= i < |f|
        ensures Valid(v, f[i])
      {
        if i >= |k| {
          assert f[i] == Filter(v, raws[1..])[i - |k|];
        }
      }
    }
  }

  /** Filtering distributes over concatenation: each entry is judged on
      its own. */
  lemma {:induction false} FilterAppend(v: Variant, a: seq<RawEvent>, b: seq<RawEvent>)
    ensures Filter(v, a + b) == Filter(v, a) + Filter(v, b)
  {
    if |a| == 0 {
      assert a + b == b;
    } else {
      assert (a + b)[1..] == a[1..] + b;
      FilterAppend(v, a[1..], b);
    }
  }

  /** Events that are already valid survive the filter unchanged. */
  lemma {:induction false} FilterToRaws(v: Variant, es: seq<Event>)
    requires AllValid(v, es)
    ensures Filter(v, ToRaws(es)) == es
  {
    if |es| > 0 {
      var raws := ToRaws(es);
      assert raws[0] == ToRaw(es[0]) && raws[1..] == ToRaws(es[1..]);
      AcceptIff(v, ToRaw(es[0]), es[0]);
      assert AllValid(v, es[1..]);
      FilterToRaws(v, es[1..]);
      assert es == [es[0]] + es[1..];
    }
  }

  lemma AllValidPermutation(v: Variant, a: seq<Event>, b: seq<Event>)
    requires AllValid(v, a) && multiset(a) == multiset(b)
    ensures AllValid(v, b)
  {
    forall i | 0 <= i < |b|
      ensures Valid(v, b[i])
    {
      assert b[i] in multiset(b);
      assert b[i] in a;
    }
  }

  /** Filter, then stable sort by timestamp. */
  function SanitizeEvents(v: Variant, raws: seq<RawEvent>): (r: seq<Event>)
    ensures AllValid(v, r)
    ensures Sorted(r)
    ensures multiset(r) == multiset(Filter(v, raws))
  {
    FilterValid(v, raws);
    AllValidPermutation(v, Filter(v, raws), InsertionSort(Filter(v, raws)));
    InsertionSort(Filter(v, raws))
  }

  /** The energy-saver sanitizer: timestamps in [0, MAX_IN_PERIOD), states
      on, off and auto-off. */
  function SanitizeAndSortDailyEventsEnergySave(raws: seq<RawEvent>): (r: seq<Event>)
    ensures forall i :: 0 <= i < |r| ==>
      0 <= r[i].ts < MAX_IN_PERIOD && r[i].state in VALID_STATES_ENERGY_SAVE
    ensures Sorted(r)
    ensures multiset(r) == multiset(Filter(DailyEnergySave, raws))
  {
    SanitizeEvents(DailyEnergySave, raws)
  }

  /** The daily sanitizer: timestamps in [0, MAX_IN_PERIOD), states on and
      off only. */
  function SanitizeAndSortDailyEvents(raws: seq<RawEvent>): (r: seq<Event>)
    ensures forall i :: 0 <= i < |r| ==>
      0 <= r[i].ts < MAX_IN_PERIOD && r[i].state in VALID_STATES
    ensures Sorted(r)
    ensures multiset(r) == multiset(Filter(Daily, raws))
  {
    SanitizeEvents(Daily, raws)
  }

  /** The multi-day sanitizer: any timestamp >= 0, states on and off only. */
  function SanitizeAndSortMultipleDaysEvents(raws: seq<RawEvent>): (r: seq<Event>)
    ensures forall i :: 0 <= i < |r| ==> 0 <= r[i].ts && r[i].state in VALID_STATES
    ensures Sorted(r)
    ensures multiset(r) == multiset(Filter(MultipleDays, raws))
  {
    SanitizeEvents(MultipleDays, raws)
  }

  /** Stability: for every timestamp, the sanitized events carrying it
      appear in the order in which they were received. */
  lemma {:induction false} SanitizeIsStable(v: Variant, raws: seq<RawEvent>, k: int)
    ensures WithTs(SanitizeEvents(v, raws), k) == WithTs(Filter(v, raws), k)
  {
    SortWithTs(Filter(v, raws), k);
  }

  /** An event is in the output exactly when some raw entry passes the
      filter as that event. */
  lemma {:induction false} SanitizeMembers(v: Variant, raws: seq<RawEvent>, e: Event)
    ensures e in SanitizeEvents(v, raws) <==>
      exists i :: 0 <= i < |raws| && Accept(v, raws[i]) == Some(e)
  {
    assert e in SanitizeEvents(v, raws) <==> e in multiset(Filter(v, raws));
    FilterMembers(v, raws, e);
  }

  lemma {:induction false} FilterMembers(v: Variant, raws: seq<RawEvent>, e: Event)
    ensures e in Filter(v, raws) <==>
      exists i :: 0 <= i < |raws| && Accept(v, raws[i]) == Some(e)
  {
    if |raws| > 0 {
      FilterMembers(v, raws[1..], e);
      if e in Filter(v, raws[1..]) {
        var i :| 0 <= i < |raws[1..]| && Accept(v, raws[1..][i]) == Some(e);
        assert Accept(v, raws[i + 1]) == Some(e);
      }
      if exists i :: 0 <= i < |raws| && Accept(v, raws[i]) == Some(e) {
        var i :| 0 <= i < |raws| && Accept(v, raws[i]) == Some(e);
        if i > 0 {
          assert Accept(v, raws[1..][i - 1]) == Some(e);
        }
      }
    }
  }

  /** Idempotence: sanitizing an already sanitized sequence returns it. */
  lemma SanitizeIdempotent(v: Variant, raws: seq<RawEvent>)
    ensures SanitizeEvents(v, ToRaws(SanitizeEvents(v, raws))) == SanitizeEvents(v, raws)
  {
    SanitizeValidSorted(v, SanitizeEvents(v, raws));
  }

  /** A valid, sorted event sequence passes through its sanitizer unchanged. */
  lemma {:induction false} SanitizeValidSorted(v: Variant, es: seq<Event>)
    requires AllValid(v, es) && Sorted(es)
    ensures SanitizeEvents(v, ToRaws(es)) == es
  {
    FilterToRaws(v, es);
    SortSorted(es);
  }

  lemma FilterRejected(v: Variant, junk: RawEvent)
    requires Accept(v, junk) == None
    ensures Filter(v, [junk]) == []
  {
    assert [junk][0] == junk;
    assert [junk][1..] == [];
  }

  /** The filter drops a rejected entry wherever it stands. */
  lemma FilterSkipsRejected(v: Variant, a: seq<RawEvent>, junk: RawEvent, b: seq<RawEvent>)
    requires Accept(v, junk) == None
    ensures Filter(v, a + [junk] + b) == Filter(v, a + b)
  {
    FilterAppend(v, a + [junk], b);
    FilterAppend(v, a, [junk]);
    FilterAppend(v, a, b);
    FilterRejected(v, junk);
  }

  /** A malformed or rejected entry anywhere in the input has no effect. */
  lemma JunkIgnored(v: Variant, a: seq<RawEvent>, junk: RawEvent, b: seq<RawEvent>)
    requires Accept(v, junk) == None
    ensures SanitizeEvents(v, a + [junk] + b) == SanitizeEvents(v, a + b)
  {
    FilterSkipsRejected(v, a, junk, b);
  }

  /** Only the relative order of equally stamped events matters: inputs
      whose accepted events agree timestamp by timestamp sanitize alike. */
  lemma SanitizeIgnoresOrderAcrossTimestamps(v: Variant, a: seq<RawEvent>, b: seq<RawEvent>)
    requires forall k :: WithTs(Filter(v, a), k) == WithTs(Filter(v, b), k)
    ensures SanitizeEvents(v, a) == SanitizeEvents(v, b)
  {
    SortIgnoresOrderAcrossTimestamps(Filter(v, a), Filter(v, b));
  }

  /** How the variants treat an `auto-off` entry and a late timestamp. */
  lemma VariantDifferences(t: int)
    ensures Accept(Daily, Entry(Finite(t), Named("auto-off"))) == None
    ensures Accept(MultipleDays, Entry(Finite(t), Named("auto-off"))) == None
    ensures Accept(DailyEnergySave, Entry(Finite(t), Named("auto-off")))
            == if 0 <= t < MAX_IN_PERIOD then Some(Event(t, AutoOff)) else None
    ensures t >= MAX_IN_PERIOD ==> Accept(Daily, Entry(Finite(t), Named("on"))) == None
    ensures t >= MAX_IN_PERIOD ==> Accept(MultipleDays, Entry(Finite(t), Named("on"))) == Some(Event(t, On))
  {
    assert StateOf(Named("auto-off")) == Some(AutoOff);
    assert StateOf(Named("on")) == Some(On);
  }
}
