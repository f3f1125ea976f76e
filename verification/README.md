# Mapty workout log, modelled in Dafny

Mapty is a browser workout tracker: the user clicks a map, fills a form, and
the app records a running or a cycling workout, shows it on the map and in a
list, and keeps the list in the browser's local storage. Apart from that
glue, its logic is in `script.js`: the `Workout` record with its `Running`
and `Cycling` variants, the validation guard of `App._newWorkout`, the
in-memory list the app appends to, and the lookup by id that a click on the
list performs. This project models that logic and proves what it promises.

- `options.dfy` (`Options`): the Some/None datatype.
- `decimal.dfy` (`Decimal`): the decimal text of a non-negative integer, as
  `n + ''` writes it for every n below 10^21 (from 10^21 on JavaScript
  switches to exponent notation, which millisecond timestamps never reach),
  and the value of a digit string; round trip, length
  bounds and the value of a suffix (the last k digits are the value modulo
  10^k).
- `text.dfy` (`Text`): `s[0].toUpperCase() + s.slice(1)` and splitting on
  spaces, with the lemma that splitting undoes joining.
- `search.dfy` (`Search`): first-occurrence search, as `Array.find` does it.
- `workouts.dfy` (`Workouts`): the `Workout` datatype with the two
  constructors `Running` and `Cycling`; the id derived from the timestamp;
  the description and a parser that reads it back; `NewRunning` and
  `NewCycling` with pace (min/km) and speed (km/h); `Clicked`; and
  `WellFormed`, what every workout the app creates satisfies (a positive
  distance and duration, a positive pace or speed that agrees with them,
  and whatever its constructor builds from its creation time).
- `app.dfy` (`Mapty`): form values as JavaScript numbers (finite, NaN,
  Infinity, -Infinity), the `isValid`/`isPositive` helpers, the guard, the
  workout a form creates, lookup by id, and the class `App` holding
  `workouts` (`#workouts`), `storage` (the 'workout' storage item) and
  `mapLoaded` (whether `#map` exists yet).

The clock is not read: a `Moment` (millisecond timestamp, month 0..11, day
of month) is passed to every operation that creates a workout. Numbers are
`real`, so the unit conversions hold exactly.

The guard (script.js:191-207) demands only a finite positive cadence, so a
fractional cadence is accepted, and `Accepted` does the same.

## Model

| member | source | states |
|---|---|---|
| `Decimal.Digits` | script.js:25 | the text `n + ''` is non-empty and made of decimal digits only; `Decimal.ValueOfDigits` pins it down as the inverse of reading digits back |
| `Decimal.ValueOfDigits` | script.js:25 | reading the decimal text of n back as a number gives n |
| `Workouts.IdOf` | script.js:25 | the id is the suffix of the timestamp's decimal text of length min(10, length of that text) |
| `Workouts.IdValue` | script.js:25 | read as a number, the id is the timestamp modulo 10^10 |
| `Workouts.IdHasFullLength` | script.js:25 | every timestamp from 10^9 ms on gives an id of exactly ten characters |
| `Workouts.IdsDistinct` | script.js:25 | two workouts created in different milliseconds less than 10^10 ms apart have different ids |
| `Workouts.TypeName` | script.js:50 | the `type` field is "running" for a run (line 50) and "cycling" for a ride (line 69): a non-empty word without spaces that starts with a lower-case letter, so capitalising it gives an upper-case initial |
| `Text.ToUpper` | script.js:38 | `toUpperCase` of a lower-case ASCII letter is the upper-case letter 32 code points below it; any other character is unchanged |
| `Text.Capitalize` | script.js:38 | same length; the first character is its upper-case form (an upper-case letter when it was a lower-case one, unchanged otherwise); the rest unchanged; no space introduced |
| `Workouts.Description` | script.js:34-41 | the description starts with the capitalised type followed by " on " and ends with a space and the day of the month; `DescriptionRoundTrip` and `DescriptionDeterminesDate` pin down the month in between |
| `Workouts.DescriptionRoundTrip` | script.js:34-41 | a description reads back as the capitalised type, " on ", the month's name at the month index and the day, so the parser is its inverse |
| `Workouts.DescriptionDeterminesDate` | script.js:34-41 | two descriptions of the same type are equal only when month and day are equal |
| `Workouts.DescriptionExample` | script.js:34-41 | a running workout on month index 2, day 5 is described "Running on March 5" |
| `Workouts.NewRunning` | script.js:49-63 | a new run keeps its inputs, starts with zero clicks, gets the id and description of its creation time, and its pace times its distance is its duration; pace is positive for positive inputs |
| `Workouts.NewCycling` | script.js:68-83 | a new ride keeps its inputs, starts with zero clicks, gets the id and description of its creation time, and its speed times its duration is 60 times its distance; speed is positive for positive inputs |
| `Workouts.RunningDescription` | script.js:49-57 | the description of a new run reads back as "Running", the month and the day |
| `Workouts.CyclingDescription` | script.js:68-76 | the description of a new ride reads back as "Cycling", the month and the day |
| `Workouts.MetricExamples` | script.js:59-82 | 10 km in 50 min is a pace of 5 min/km; 20 km in 60 min is 20 km/h |
| `Workouts.Clicked` | script.js:43-45 | the click count goes up by exactly one and every other field is unchanged |
| `Workouts.ClickedWellFormed` | script.js:26-45 | clicking keeps a well-formed workout well formed |
| `Workouts.WellFormedFields` | script.js:22-83 | a well-formed workout has the id and description of its creation time |
| `Mapty.AllFinite` | script.js:191 | `isValid` holds exactly when every input is a finite number |
| `Mapty.AllPositive` | script.js:192 | `isPositive` holds exactly when every input is greater than zero (NaN and -Infinity are not, Infinity is) |
| `Mapty.Accepted` | script.js:196-217 | an accepted form, run or ride, has a finite distance and duration greater than zero; `RunningAcceptedIff` and `CyclingAcceptedIff` state each branch as an if-and-only-if |
| `Mapty.RunningAcceptedIff` | script.js:191-207 | a run is accepted if and only if cadence, distance and duration are all finite and greater than zero |
| `Mapty.CyclingAcceptedIff` | script.js:211-219 | a ride is accepted if and only if elevation, distance and duration are finite and distance and duration are greater than zero; the elevation's sign is not checked |
| `Mapty.GuardExamples` | script.js:199-219 | a run of -1 km and a run with cadence 0 are refused; a ride with -50 m elevation is accepted |
| `Mapty.CreateWorkout` | script.js:194-220 | a workout is created exactly when the guard accepts; it is well formed, of the submitted type, built from the submitted finite values at the given position and time, with zero clicks |
| `Mapty.FindById` | script.js:313-315 | the result is the entry at the first index whose id matches; none exactly when no entry has the id |
| `Mapty.FindAfterAppend` | script.js:313-315 | appending a workout leaves every earlier lookup unchanged; an id first seen in the new workout finds it |
| `Mapty.App.constructor` | script.js:103-108 | a new app has no map yet and holds the stored list when there is one, the empty list otherwise |
| `Mapty.App.LoadMap` | script.js:128-148 | once geolocation answers, the map exists; the list and the stored copy are untouched |
| `Mapty.App.NewWorkout` | script.js:179-235 | accepted exactly when the guard accepts; a rejected form changes neither the list nor the stored copy; an accepted one appends exactly one workout at the end, keeps earlier entries and their order, and stores the whole list; well-formedness of the list is preserved; whether the map exists is unchanged |
| `Mapty.App.SaveToStorage` | script.js:326-328 | the stored copy becomes exactly the current list |
| `Mapty.App.LoadFromStorage` | script.js:330-342 | with nothing stored the list is unchanged; otherwise it becomes the stored list, so a load after a save gives back the same list in the same order |
| `Mapty.App.Reset` | script.js:343-346 | the stored item is removed and the reloaded app starts with an empty list and no map |
| `Mapty.App.Find` | script.js:313-315 | a found workout is the entry at the first index whose id matches; none exactly when no entry has the id |
| `Mapty.App.PopupTarget` | script.js:307-324 | a click outside the list is ignored; a click on an entry centres on the coordinates of the first workout with that id, which needs the map to exist; a click on an entry before the map exists, or on an id not in the list, is the TypeError the source raises |

## Left out

- Geolocation, the Leaflet map, markers and popups (script.js:116-148, 237-257): foreign library calls and asynchronous callbacks. The map is reduced to whether it exists (`App.LoadMap`); its position, zoom and tiles are not modelled, nor is the geolocation failure alert.
- Rendering of the list, showing, hiding and toggling the form, including its `setTimeout` and the `toFixed(1)` display rounding (script.js:150-177, 259-305): DOM work.
- JSON serialisation of local storage: the stored item is modelled as the list itself. In the source, restored entries are plain objects, not `Running`/`Cycling` instances, and their `date` becomes a string (script.js:331-337); the model keeps them as the same datatype values, so it does not capture that restored entries lose `calcPace`, `calcSpeed` and `clicks`. A failing storage write (quota) is not modelled.
- IEEE-754 arithmetic: distance, duration, cadence, elevation, pace and speed are `real`; form values are only classified as finite, NaN or an infinity.
- NewRunning: requires a non-zero distance, because over `real` there is no Infinity for `duration / 0`; the guard always establishes distance > 0 before a run is built.
- NewCycling: requires a non-zero duration, for the same reason and with the same guarantee from the guard.
- The clock (`new Date()` and `Date.now()`, script.js:24-25): passed in as one `Moment`; the source reads the clock twice, and a millisecond tick between the two reads is not modelled. The month and day are taken as given, whatever the time zone.
- Clicked: `clicks()` increments the field of the object in place; the model returns the updated value, so aliasing of that object is not modelled. No caller uses it (the call at script.js:323 is commented out).
- A form type that is neither running nor cycling leaves `workout` undefined (script.js:188-223); the form only offers the two types, so `Submission` has two constructors.
- A submission before any map click reads `#mapE.latlng` of undefined (script.js:187); the position is passed in.
- Text.Capitalize: upper-cases only ASCII letters, which is all the type names use; `toUpperCase` on other characters is not modelled.
