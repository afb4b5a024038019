/** Data model shared by the sanitizers and the reducers: appliance states,
    raw (possibly malformed) input events and profiles, sanitized events,
    and the error kinds of the public operations. */
module Events {

  /** Length of one period: the number of minutes in a day. */
  const MAX_IN_PERIOD: int := 1440

  /** Power mode of the appliance. The usage calculations use only `On` and
      `Off`; the energy-savings calculation also uses `AutoOff`. */
  datatype State = On | Off | AutoOff

  /** States accepted in usage events and usage profiles. */
  const VALID_STATES: set<State> := {On, Off}

  /** States accepted in energy-saver events and profiles. */
  const VALID_STATES_ENERGY_SAVE: set<State> := {On, Off, AutoOff}

  /** The wire name of a state. */
  function Name(s: State): string
  {
    match s
    case On => "on"
    case Off => "off"
    case AutoOff => "auto-off"
  }

  datatype Option<T> = None | Some(value: T)

  /** A `state` field as it can arrive: some string, `null`, or absent. */
  datatype RawState = Named(name: string) | NullState | MissingState

  /** The state a raw field denotes, if it names one exactly. */
  function StateOf(raw: RawState): (r: Option<State>)
    ensures r.Some? ==> raw == Named(Name(r.value))
  {
    if raw == Named("on") then Some(On)
    else if raw == Named("off") then Some(Off)
    else if raw == Named("auto-off") then Some(AutoOff)
    else None
  }

  /** Every state's wire name denotes that state, so the names are distinct. */
  lemma StateOfName(s: State)
    ensures StateOf(Named(Name(s))) == Some(s)
  {
  }

  /** A `timestamp` field as it can arrive: a finite number, a non-finite
      number (NaN, Infinity), or anything that is not a number (absent,
      `null`, a string). Finite numbers are modelled as integers. */
  datatype RawTime = Finite(value: int) | NonFinite | NonNumeric

  /** One element of a raw event array: a falsy entry (`null`, `undefined`)
      or an object with a timestamp and a state field. */
  datatype RawEvent = NullEvent | Entry(timestamp: RawTime, state: RawState)

  /** The `events` field of a profile: an array, or something else. */
  datatype RawList = Items(items: seq<RawEvent>) | NotAnArray

  /** A profile as passed by a caller, possibly missing altogether. */
  datatype RawProfile = NoProfile | Profile(initial: RawState, events: RawList)

  /** A sanitized event: an integer timestamp and a known state. */
  datatype Event = Event(ts: int, state: State)

  /** Every event is stamped inside the period, `0 <= ts < MAX_IN_PERIOD`,
      as every single-day sanitizer guarantees. */
  predicate InPeriod(es: seq<Event>)
  {
    forall i :: 0 <= i < |es| ==> 0 <= es[i].ts < MAX_IN_PERIOD
  }

  /** The looser bound `0 <= ts <= MAX_IN_PERIOD`, under which the usage
      walk still stays within the period. */
  predicate InClosedPeriod(es: seq<Event>)
  {
    forall i :: 0 <= i < |es| ==> 0 <= es[i].ts <= MAX_IN_PERIOD
  }

  /** Every event is stamped at or after `t`. */
  predicate NotBefore(es: seq<Event>, t: int)
  {
    forall i :: 0 <= i < |es| ==> t <= es[i].ts
  }

  /** Failure kinds of the public operations. */
  datatype Error = InvalidProfile | DayNotInteger | DayOutOfRange

  datatype Result<T> = Ok(value: T) | Err(error: Error)

  /** The raw object a sanitized event came from (or is passed on as). */
  function ToRaw(e: Event): RawEvent
  {
    Entry(Finite(e.ts), Named(Name(e.state)))
  }

  /** The raw array a sequence of sanitized events is passed on as. */
  function ToRaws(es: seq<Event>): (r: seq<RawEvent>)
    ensures |r| == |es|
  {
    if |es| == 0 then [] else [ToRaw(es[0])] + ToRaws(es[1..])
  }

  /** The shape gate of every public operation: a profile is present, its
      initial state is one of `states`, and its events are an array. */
  predicate ProfileOk(p: RawProfile, states: set<State>)
  {
    && p.Profile?
    && StateOf(p.initial).Some?
    && StateOf(p.initial).value in states
    && p.events.Items?
  }

  /** The initial state of a profile that passed the gate. */
  function InitialOf(p: RawProfile, states: set<State>): (s: State)
    requires ProfileOk(p, states)
    ensures s in states
    ensures p.initial == Named(Name(s))
  {
    StateOf(p.initial).value
  }

  /** The state in force after a sequence of state changes that starts
      in `s`: the last event's state, or `s` when there are none. */
  function StateAfter(s: State, es: seq<Event>): State
  {
    if |es| == 0 then s else es[|es| - 1].state
  }
}
