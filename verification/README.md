# Appliance energy usage, modelled in Dafny

The repository computes how long an appliance is on during a day, how long it
is on during one day of a year-long log, and how long the auto-off windows
that an energy saver opened from `on` ran during a day. A profile is an initial state plus a list of
`{ timestamp, state }` events. Timestamps are in minutes, and one period is
`MAX_IN_PERIOD` = 1440 minutes.

Each calculation first runs the events through one of three sanitizers. A
sanitizer keeps only the well-formed events of its variant and sorts them by
timestamp. The calculation then walks the sorted events in order:

- `calculateEnergyUsageSimple` adds up the stretches spent `on`. It ignores
  repeated states and closes an open `on` stretch at the end of the day.
- `calculateEnergyUsageForDay` checks the day number (1 to 365). It cuts the
  day's window out of the year log and shifts those events to start at 0. It
  takes the state in force at the start of the day from the last earlier
  event. Then it hands the result to `calculateEnergyUsageSimple`.
- `calculateEnergySavings` opens a saving window when `auto-off` follows
  `on`, and closes it at the next `on`. It ignores `off` while in `auto-off`,
  and it ignores `auto-off` unless the appliance is `on`. A window still open
  at the end of the day runs to minute 1440. An empty log that starts in
  `auto-off` saves the whole period.

Modules:

- `Events`: the states, the untyped input as JavaScript hands it over (null
  events, non-numeric timestamps, unknown or missing states, a missing
  profile, a non-array event list), the result and error types, and the
  constants.
- `Sorting`: a stable insertion sort keyed on the timestamp. `Array.prototype.sort`
  is stable, and events that share a timestamp keep their input order.
- `Sanitize`: the per-variant filter and the three sanitizers.
- `Timeline`: a reference meaning for a log that does not depend on any
  reducer. `StateAt` is the state in force at a minute, and `OnMinutes`
  counts the minutes of a range at which that state is `on`.
- `UsageSimple`, `UsageForDay`, `EnergySavings`: the three calculations and
  the lemmas relating each one to its reference meaning. `UsageSimple` and
  `EnergySavings` are folds over the sorted events, each with a loop
  implementation proved equal to its fold. `UsageForDay` cuts the day's
  window out of the whole log, rebases it, and hands it to `UsageSimple`;
  its one loop is the backward scan for the state carried into the day.
- `LiteralCases`: the repository's own test scenarios, restated as lemmas
  about the model.

Errors the source throws become `Err(...)` results. There is one error value
per distinct check: `InvalidProfile`, `DayNotInteger` and `DayOutOfRange`.

## Model

| member | source | states |
|---|---|---|
| Sanitize.Kept | utils/sanitizeEvents.js:11-19 | no contract; what one raw entry contributes: the accepted event or nothing, with the acceptance test stated in both directions by `Sanitize.AcceptIff` |
| Sanitize.Filter | utils/sanitizeEvents.js:10-19 | keeps at most as many events as entries; its meaning is given by `Sanitize.FilterMembers` (membership in both directions), `Sanitize.FilterAppend` (input order) and `Sanitize.FilterValid` |
| Sanitize.Accept | utils/sanitizeEvents.js:11-19 | an accepted raw event is exactly the raw form of a valid event: a finite timestamp within the variant's range and a state the variant allows |
| Sanitize.Accepted | utils/sanitizeEvents.js:18 | no contract; the state set of each variant: on, off and auto-off for the energy-saver filter (line 18), on and off for the other two (lines 38 and 57) |
| Sanitize.Bounded | utils/sanitizeEvents.js:17 | no contract; whether the variant has the upper bound `timestamp < 1440` (lines 17 and 37), which the multi-day filter lacks (lines 56-57) |
| Sanitize.Valid | utils/sanitizeEvents.js:13-18 | no contract; what an accepted event satisfies: a timestamp from 0, below 1440 for a bounded variant, and a state of the variant's set; `Sanitize.AcceptIff` states it is exactly what the filter accepts |
| Sanitize.AcceptIff | utils/sanitizeEvents.js:11-19 | the filter predicate in both directions: a raw event passes if and only if it is the raw form of an event valid for the variant |
| Sanitize.FilterValid | utils/sanitizeEvents.js:31-39 | every event the filter keeps is valid for its variant |
| Sanitize.FilterAppend | utils/sanitizeEvents.js:51-58 | filtering distributes over concatenation, so filtering keeps input order |
| Sanitize.FilterMembers | utils/sanitizeEvents.js:31-39 | an event survives filtering if and only if its raw form is in the input and it is valid |
| Sanitize.FilterToRaws | utils/sanitizeEvents.js:31-39 | handing already-valid events back as raw input loses nothing and reorders nothing |
| Sanitize.SanitizeEvents | utils/sanitizeEvents.js:9-60 | the output is all valid, sorted by timestamp, and a permutation of the filtered input |
| Sanitize.SanitizeAndSortDailyEventsEnergySave | utils/sanitizeEvents.js:9-21 | output timestamps lie in 0..1439, states are on, off or auto-off, sorted, and a permutation of the accepted input |
| Sanitize.SanitizeAndSortDailyEvents | utils/sanitizeEvents.js:29-41 | output timestamps lie in 0..1439, states are on or off, sorted, and a permutation of the accepted input |
| Sanitize.SanitizeAndSortMultipleDaysEvents | utils/sanitizeEvents.js:49-60 | output timestamps are non-negative with no upper bound, states are on or off, sorted, and a permutation of the accepted input |
| Sanitize.SanitizeIsStable | utils/sanitizeEvents.js:20 | the sort is stable: for every timestamp, the events carrying it appear in the same order as in the filtered input |
| Sanitize.SanitizeMembers | utils/sanitizeEvents.js:9-21 | an event is in the sanitized output if and only if its raw form is in the input and it is valid |
| Sanitize.SanitizeIdempotent | utils/sanitizeEvents.js:29-41 | sanitizing an already sanitized list gives it back unchanged |
| Sanitize.SanitizeValidSorted | utils/sanitizeEvents.js:29-41 | a list that is already valid and sorted passes through a sanitizer unchanged |
| Sanitize.FilterRejected | utils/sanitizeEvents.js:31-39 | a single rejected raw event filters to nothing |
| Sanitize.FilterSkipsRejected | utils/sanitizeEvents.js:31-39 | a rejected raw event anywhere in the input does not change what the filter keeps |
| Sanitize.JunkIgnored | utils/sanitizeEvents.js:29-41 | a rejected raw event anywhere in the input does not change the sanitized output |
| Sanitize.SanitizeIgnoresOrderAcrossTimestamps | utils/sanitizeEvents.js:40 | two inputs whose accepted events agree per timestamp sanitize to the same list, whatever their order across timestamps |
| Sanitize.VariantDifferences | utils/sanitizeEvents.js:17-18 | auto-off passes only the energy-save sanitizer, and a timestamp of 1440 or more passes only the multi-day one |
| Sorting.Insert | utils/sanitizeEvents.js:20 | inserting an event adds exactly that event to the multiset of events |
| Sorting.InsertSorted | utils/sanitizeEvents.js:20 | inserting into a sorted list keeps it sorted |
| Sorting.InsertionSort | utils/sanitizeEvents.js:20 | the sort returns a sorted permutation of its input |
| Sorting.SortWithTs | utils/sanitizeEvents.js:20 | for each timestamp, the sort keeps the input order of the events carrying it |
| Sorting.SortedUnique | utils/sanitizeEvents.js:20 | two sorted lists that agree per timestamp are equal, so a stable sort has exactly one possible output |
| Sorting.SortSorted | utils/sanitizeEvents.js:20 | sorting an already sorted list returns it unchanged |
| Sorting.SortIgnoresOrderAcrossTimestamps | utils/sanitizeEvents.js:20 | inputs that agree per timestamp sort to the same list |
| Events.Name | utils/constants.js:9-14 | no contract; the wire strings `on`, `off` and `auto-off` of the three states, which `Events.StateOfName` states are recognised back |
| Events.ToRaws | services/calculateEnergyUsageForDay.js:48-51 | as many raw entries as events; what the entries are is given by `Sanitize.FilterToRaws`, which states that filtering them gives the events back unchanged and in order |
| Events.StateOf | utils/constants.js:9-14 | a recognised state string is exactly the name of that state |
| Events.StateOfName | utils/constants.js:9-14 | every state's name is recognised as that state |
| Events.ProfileOk | services/calculateEnergyUsageSimple.js:20-24 | no contract; it is the shape gate, and `UsageSimple.CalculateEnergyUsageSimple` and `EnergySavings.CalculateEnergySavings` state that they fail exactly when it does not hold |
| Events.InitialOf | services/calculateEnergyUsageSimple.js:20-26 | a profile that passes the gate has an initial state of the allowed set, named exactly as given |
| Timeline.StateAtAppend | services/calculateEnergyUsageForDay.js:54-61 | a fact about the reference semantics, not a code step: applying a log in two pieces gives the same state as applying it whole; `UsageForDay.CarriedStateIsStateAt` uses it to show that the backward scan picks the state in force before the day |
| Timeline.StateAtAfterAll | services/calculateEnergyUsageSimple.js:49 | a fact about the reference semantics, not a code step: once every event has happened, the state of the last event is in force; it is the reference counterpart of `UsageSimple.WalkEndsInLastState`, which states the same of the loop's final `state` |
| Timeline.OnMinutesSplit | services/calculateEnergyUsageSimple.js:44-46 | a fact about the reference semantics, not a code step: the on-minutes of a range are the sum of the on-minutes of its two halves; `UsageSimple.DwellIsOnMinutes` uses it to show that adding one stretch per event, as the loop does, counts every on-minute once |
| UsageSimple.Step | services/calculateEnergyUsageSimple.js:37-51 | no contract; one iteration of the loop, given meaning by `UsageSimple.WalkKeepsBounds`, `UsageSimple.WalkEndsInLastState` and `UsageSimple.WalkIsDwell` |
| UsageSimple.WalkAll | services/calculateEnergyUsageSimple.js:37-51 | no contract; the whole loop, proved equal to the loop in `UsageSimple.OnTimeLoop` |
| UsageSimple.Close | services/calculateEnergyUsageSimple.js:53-56 | no contract; the end-of-day close, given meaning by `UsageSimple.WalkIsDwell` |
| UsageSimple.OnTime | services/calculateEnergyUsageSimple.js:31-58 | no contract; the reducer, given meaning by `UsageSimple.OnTimeIsOnMinutes` (minutes on) and bounded by `UsageSimple.OnTimeBounds` |
| UsageSimple.WalkKeepsBounds | services/calculateEnergyUsageSimple.js:37-51 | along any log of in-day events the running total and the last change time stay within the day, and the total never exceeds the time elapsed |
| UsageSimple.OnTimeBounds | services/calculateEnergyUsageSimple.js:53-58 | the usage of in-day events lies between 0 and 1440 |
| UsageSimple.OnTimeLoop | services/calculateEnergyUsageSimple.js:32-58 | the loop, which skips an out-of-order or repeated event, computes the same total as the reference fold, within 0..1440 |
| UsageSimple.WalkEndsInLastState | services/calculateEnergyUsageSimple.js:41 | on a sorted log the out-of-order guard never fires, and the walk ends in the state of the last event |
| UsageSimple.WalkIsDwell | services/calculateEnergyUsageSimple.js:44-56 | closing the walk adds up exactly the time from the last change to the end of the day spent in `on` |
| UsageSimple.OnTimeIsOnMinutes | services/calculateEnergyUsageSimple.js:37-56 | on a sorted in-day log the usage is the number of minutes at which the appliance is on |
| UsageSimple.Complement | services/calculateEnergyUsageSimple.js:54-56 | for a two-state log, the time spent on plus the time spent off covers the rest of the day exactly |
| UsageSimple.RepeatIgnored | services/calculateEnergyUsageSimple.js:41 | an event repeating the state already in force changes no dwell time |
| UsageSimple.DuplicateEventIgnored | services/calculateEnergyUsageSimple.js:41 | an event that repeats the current state does not change the usage |
| UsageSimple.CalculateEnergyUsageSimple | services/calculateEnergyUsageSimple.js:17-62 | it fails with `InvalidProfile` exactly when the profile, its initial state or its event array is bad, and otherwise returns a value in 0..1440 |
| UsageSimple.UsageSimpleCountsOnMinutes | services/calculateEnergyUsageSimple.js:28-58 | for a valid profile, the result is the number of minutes of the day at which the sanitized log says the appliance is on |
| UsageSimple.NoValidEvents | services/calculateEnergyUsageSimple.js:53-56 | with no valid events the result is 1440 when starting on and 0 when starting off |
| UsageSimple.UsageSimpleComplement | services/calculateEnergyUsageSimple.js:37-56 | for a valid profile, the result plus the minutes spent off is 1440 |
| UsageSimple.JunkDoesNotChangeUsage | services/calculateEnergyUsageSimple.js:29 | inserting a rejected raw event anywhere does not change the result |
| UsageSimple.OrderAcrossTimestampsDoesNotChangeUsage | services/calculateEnergyUsageSimple.js:29 | reordering the input across different timestamps does not change the result |
| UsageForDay.DayStart | services/calculateEnergyUsageForDay.js:39 | no contract; `(n - 1) * 1440`, the first minute of day n, used by `UsageForDay.UsageForDayCountsOnMinutes` |
| UsageForDay.InWindow | services/calculateEnergyUsageForDay.js:46-47 | no contract; the day filter, given meaning by `UsageForDay.InWindowFacts` |
| UsageForDay.Rebase | services/calculateEnergyUsageForDay.js:48-51 | keeps the number of events; the per-event shift is `UsageForDay.RebaseFacts` |
| UsageForDay.CarriedState | services/calculateEnergyUsageForDay.js:54-61 | no contract; given meaning by `UsageForDay.CarriedStateIsStateAt` and implemented by `UsageForDay.CarriedStateLoop` |
| UsageForDay.DayEvents | services/calculateEnergyUsageForDay.js:46-51 | no contract; the window then the rebase, given meaning by `UsageForDay.DelegatedEventsPassThrough` and `UsageForDay.DayOnMinutesCarried` |
| UsageForDay.DayOnMinutesCarried | services/calculateEnergyUsageForDay.js:39-61 | the on-minutes of day n in the whole log are the on-minutes of the rebased day events, starting from the carried state |
| UsageForDay.InWindowFacts | services/calculateEnergyUsageForDay.js:46-47 | the window keeps exactly the input's events inside the day, in both directions (each kept event is an input event inside the day, and each input event inside the day is kept), and keeps a sorted log sorted |
| UsageForDay.InWindowSound | services/calculateEnergyUsageForDay.js:46-47 | each kept event is an input event with a timestamp inside the day, and a sorted log stays sorted |
| UsageForDay.InWindowComplete | services/calculateEnergyUsageForDay.js:46-47 | no input event stamped inside the day is dropped |
| UsageForDay.RebaseFacts | services/calculateEnergyUsageForDay.js:48-51 | each kept event is shifted to a timestamp relative to the start of the day, and its state is unchanged |
| UsageForDay.LastBefore | services/calculateEnergyUsageForDay.js:55-61 | the backward scan finds the last event before the day starts, or none, and every later event is at or after the start |
| UsageForDay.CarriedStateLoop | services/calculateEnergyUsageForDay.js:54-61 | the backward loop with `break` returns the same carried state as the reference definition |
| UsageForDay.CarriedStateIsStateAt | services/calculateEnergyUsageForDay.js:54-61 | the carried state is the state in force one minute before the day starts |
| UsageForDay.DelegatedEventsPassThrough | services/calculateEnergyUsageForDay.js:46-67 | the day's rebased events are valid daily events in order, so the daily sanitizer inside the delegated call returns them unchanged |
| UsageForDay.DayOnMinutes | services/calculateEnergyUsageForDay.js:39-51 | counting on-minutes inside the day window of the whole log equals counting them on the rebased window that starts in the state in force before the day |
| UsageForDay.CalculateEnergyUsageForDay | services/calculateEnergyUsageForDay.js:20-71 | a non-integer day gives `DayNotInteger`; a day outside 1..365 gives `DayOutOfRange`; in range it fails only for a bad profile; any value lies in 0..1440 |
| UsageForDay.UsageForDayCountsOnMinutes | services/calculateEnergyUsageForDay.js:38-67 | for a valid profile and day, the result is the number of minutes of that day of the year at which the whole sanitized log says the appliance is on |
| UsageForDay.EmptyLogEveryDay | services/calculateEnergyUsageForDay.js:54-67 | with no events, every day counts 1440 when starting on and 0 when starting off |
| EnergySavings.SaveStep | services/calculateEnergySavings.js:37-62 | no contract; one iteration with the four rules in source order, given meaning by `EnergySavings.WindowRules` and `EnergySavings.SaveWalkKeepsConsistent` |
| EnergySavings.SaveWalkAll | services/calculateEnergySavings.js:36-63 | no contract; the whole loop, proved equal to the loop in `EnergySavings.SavingsLoop` |
| EnergySavings.EndOfPeriod | services/calculateEnergySavings.js:66-68 | no contract; closes an open window at 1440, given meaning by `EnergySavings.SaveWalkIsOpenMinutes` |
| EnergySavings.Start | services/calculateEnergySavings.js:31-33 | no contract; the initial loop variables: the profile's state, no open window, nothing saved |
| EnergySavings.Falsy | services/calculateEnergySavings.js:71 | no contract; the JavaScript falsiness of `autoOffStart`, true for `null` and for `0`, as used by `EnergySavings.Savings` and `EnergySavings.SavingsLoop` |
| EnergySavings.Savings | services/calculateEnergySavings.js:30-75 | no contract; the reducer with the special case, given meaning by `EnergySavings.SavingsIsOpenMinutes` and bounded by `EnergySavings.SavingsBounds` |
| EnergySavings.SaveWalkKeepsConsistent | services/calculateEnergySavings.js:36-63 | a saving window is open only while the state is auto-off |
| EnergySavings.WindowRules | services/calculateEnergySavings.js:40-61 | a window opens exactly on auto-off after on, at that event's minute, with the state moving to auto-off; an open window closes on on, adding its length; any other event leaves an open window untouched; with no window open, auto-off from a state other than on and off during auto-off change nothing, and every other event moves the state to the event's state; together these fix the step on every consistent walk |
| EnergySavings.SaveWalkBounds | services/calculateEnergySavings.js:36-68 | from any consistent walk whose savings fit in the time elapsed so far, finishing a sorted in-day log and closing the open window gives a total in 0..1440 |
| EnergySavings.SavingsBounds | services/calculateEnergySavings.js:65-75 | the savings of a sorted in-day log lie between 0 and 1440 |
| EnergySavings.SavingsLoop | services/calculateEnergySavings.js:31-75 | the loop with its `continue` branches computes the same total as the reference fold, within 0..1440 |
| EnergySavings.SaveWalkAppend | services/calculateEnergySavings.js:36-63 | walking a log in two pieces is walking it whole |
| EnergySavings.IgnoredEventDropped | services/calculateEnergySavings.js:50-58 | an event the walk ignores can be deleted without changing the savings of a non-empty log |
| EnergySavings.AutoOffIgnoredUnlessOn | services/calculateEnergySavings.js:55-58 | auto-off while the appliance is not on changes nothing |
| EnergySavings.ManualOffIgnoredInAutoOff | services/calculateEnergySavings.js:50-53 | off while in auto-off changes nothing |
| EnergySavings.LeadingAutoOffNotCounted | services/calculateEnergySavings.js:31-73 | starting in auto-off, no saving window is open before the first event, so for every non-empty sorted in-day log that leading stretch counts nothing and the savings are exactly the open-window minutes; only the empty log saves the whole 1440 through the special case |
| EnergySavings.OpenMinutesSplit | services/calculateEnergySavings.js:40-43 | a fact about the reference semantics, not a code step: the open-window minutes of a range are the sum over its two halves; `EnergySavings.SaveWalkIsOpenMinutes` uses it to show that adding each window's length when it closes counts every open minute once |
| EnergySavings.SaveWalkIsOpenMinutes | services/calculateEnergySavings.js:36-68 | the walk's closed total is the number of minutes at which a saving window is open |
| EnergySavings.SavingsIsOpenMinutes | services/calculateEnergySavings.js:36-73 | the savings are the open-window minutes of the day, except that an empty log starting in auto-off saves 1440 |
| EnergySavings.CalculateEnergySavings | services/calculateEnergySavings.js:14-79 | it fails with `InvalidProfile` exactly when the profile, its initial state or its event array is bad, and otherwise returns a value in 0..1440 |
| EnergySavings.SavingsCountsOpenMinutes | services/calculateEnergySavings.js:27-75 | for a valid profile, the result is the open-window minutes of the sanitized log, or 1440 for an empty log starting in auto-off |
| EnergySavings.NoValidEventsSavings | services/calculateEnergySavings.js:70-73 | with no valid events the result is 1440 when starting in auto-off and 0 otherwise |
| LiteralCases.SanitizeRemovesInvalid | tests/utils/sanitizeEvents.test.js:4-12 | a null timestamp and an unknown state are dropped |
| LiteralCases.SanitizeSortsChronologically | tests/utils/sanitizeEvents.test.js:14-24 | valid events come out in timestamp order |
| LiteralCases.SimpleInitialOn | tests/services/calculateEnergyUsageSimple.test.js:5-16 | starting on, off at 126 and on at 833 gives 126 + (1440 - 833) |
| LiteralCases.SimpleDuplicateOn | tests/services/calculateEnergyUsageSimple.test.js:41-54 | a repeated on is ignored: 150 - 30 + (1440 - 656) |
| LiteralCases.SimpleUnsorted | tests/services/calculateEnergyUsageSimple.test.js:109-121 | unsorted input gives 100 - 0 + (300 - 200) |
| LiteralCases.SimpleInvalidProfile | tests/services/calculateEnergyUsageSimple.test.js:123-133 | a null initial state is rejected |
| LiteralCases.SimpleJunkIgnored | tests/services/calculateEnergyUsageSimple.test.js:135-151 | junk entries are ignored: 100 - 50 + (300 - 150) |
| LiteralCases.SimpleWholeDay | tests/services/calculateEnergyUsageSimple.test.js:153-162 | on at 0 and off at 1439 gives 1439 |
| LiteralCases.DayCarriesStateAcrossDays | tests/services/calculateEnergyUsageForDay.test.js:61-71 | an on at minute 4500 gives 0 on day 2, 1260 on day 4 and 1440 on day 15 |
| LiteralCases.DayRejected | tests/services/calculateEnergyUsageForDay.test.js:73-91 | days -5, 0 and 366 are out of range, and a non-integer day is rejected |
| LiteralCases.SavingsLeadingAutoOff | services/calculateEnergySavings.js:50-53 | starting in auto-off, a lone off at 1439 is ignored and the state stays auto-off, yet the savings are 0, while the empty log saves 1440 (lines 70-73) |
| LiteralCases.SavingsEmpty | tests/services/calculateEnergySavings.test.js:6-28 | empty logs save 0 from on or off and 1440 from auto-off |
| LiteralCases.SavingsSensibleData | tests/services/calculateEnergySavings.test.js:30-47 | the sensible log saves 933 - 500 + (1440 - 1320) |
| LiteralCases.SavingsOffAfterAutoOffIgnored | tests/services/calculateEnergySavings.test.js:70-81 | off after auto-off is ignored: 1440 - 320 |
| LiteralCases.SavingsAutoOffWhileOffIgnored | tests/services/calculateEnergySavings.test.js:93-105 | auto-off while off is ignored: 1440 - 500 |

## Left out

- Error messages and the `try`/`catch` re-wrapping of every message: only which check failed is modelled, as the error value.
- `services/calculateEnergySavings.js:62` assigns an undeclared `lastChangeTime`, which creates a global in sloppy mode and is never read. It has no effect on the result and is not modelled.
- Fractional timestamps, `NaN` and `Infinity`: timestamps are integers, and a non-finite or non-number timestamp is one of the two rejected `RawTime` cases. `Number.isInteger(day)` becomes the `NonIntegerDay` case of the day argument.
- The module wiring in `utils/index.js` and `services/index.js`: the constants of `utils/constants.js` are Dafny constants.
- Some Jest tests have no literal lemma, so no lemma pins their expected numbers; only the general lemmas speak to them:
  `tests/services/calculateEnergyUsageSimple.test.js` lines 18-31 (initial off, 556), 33-39 (on with no events, 1440; see `UsageSimple.NoValidEvents`), 56-70 (duplicate off, 864), 72-82 (null timestamps, 100), 84-95 (invalid states, 200) and 97-107 (out-of-range timestamps, 50);
  `tests/services/calculateEnergyUsageForDay.test.js` lines 24-31 (empty logs; see `UsageForDay.EmptyLogEveryDay`) and 33-59 (the twelve-event profile for days 1 to 5);
  `tests/services/calculateEnergySavings.test.js` lines 49-68 (silly data example 1) and 83-92 (auto-off after a manual off, 0). The remaining tests are restated as `LiteralCases` lemmas.
- The savings special case reads `!autoOffStart`, which is also true for a window opened at minute 0. It is modelled with JavaScript falsiness. The case only applies to an empty log, where no window can have opened, so the quirk never changes a result.
- EnergySavings.IgnoredEventDropped: requires the log without the ignored event to be non-empty, because the empty-log special case makes a lone ignored event matter (initial `auto-off` with one ignored `off` saves 0, with none 1440).
- EnergySavings.AutoOffIgnoredUnlessOn: requires a non-empty remaining log, for the same reason.
- EnergySavings.ManualOffIgnoredInAutoOff: requires a non-empty remaining log, for the same reason.
- Sanitize.Accept: its contract only states that accepted events are sound; the converse is the separate lemma `Sanitize.AcceptIff`.
- Events.StateOf: its contract only states that recognised strings are sound; the converse is the separate lemma `Events.StateOfName`.
- EnergySavings.LeadingAutoOffNotCounted: a non-empty log that starts in `auto-off` does not count the stretch before its first event as saved. It is modelled as written: the special case at `services/calculateEnergySavings.js:70-73` covers only the empty log, so nothing else credits a leading auto-off stretch. This departs from the docstring at lines 4-5 and 11, which promises the total time spent in `auto-off`: an `off` at 1439 after an initial `auto-off` is ignored and the state stays `auto-off` all day, yet that log saves 0 (`LiteralCases.SavingsLeadingAutoOff`). A later window can still save time, e.g. `on` then `auto-off` at minute 0 saves 1440.
