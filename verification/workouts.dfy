/** The workout record (`Workout` in script.js) and its two variants,
    `Running` and `Cycling`, with the values their constructors derive: the id
    taken from the creation timestamp, the description, and the pace or the
    speed. The clock is read once, by the caller, and passed in as a Moment. */
module Workouts {
  import opened Options
  import opened Decimal
  import opened Text
  import opened Search

  /** `[lat, lng]` of the map click the workout was entered at. */
  type Coords = (real, real)

  /** A reading of the clock: `Date.now()` in milliseconds, and the
      `getMonth()` (0 for January) and `getDate()` of the same instant. */
  datatype Moment = Moment(timestamp: nat, month: nat, day: nat)

  /** What the clock guarantees of a reading. */
  predicate ValidMoment(m: Moment) {
    m.month < 12 && 1 <= m.day <= 31
  }

  /** A workout: the fields every variant has, then the variant's own input
      (cadence in steps/min, or elevation gain in m) and its derived metric
      (pace in min/km, or speed in km/h). Distance is in km, duration in min. */
  datatype Workout =
    | Running(date: Moment, id: string, coords: Coords, distance: real, duration: real,
              click: nat, description: string, cadence: real, pace: real)
    | Cycling(date: Moment, id: string, coords: Coords, distance: real, duration: real,
              click: nat, description: string, elevationGain: real, speed: real)

  /** The `type` field each variant sets. */
  function TypeName(w: Workout): (t: string)
    ensures |t| > 0 && ' ' !in t && IsLower(t[0])
  {
    if w.Running? then "running" else "cycling"
  }

  const Months: seq<string> := ["January", "February", "March", "April", "May", "June", "July",
    "August", "September", "October", "November", "December"]

  /** Number of characters the id keeps from the end of the timestamp's text. */
  const IdLength: nat := 10

  /** `(Date.now() + '').slice(-10)`: the last ten characters of the
      timestamp's decimal text, or all of it when it is shorter. */
  function IdOf(timestamp: nat): (id: string)
    ensures var s := Digits(timestamp);
      |id| == (if |s| < IdLength then |s| else IdLength) && id == s[|s| - |id|..]
  {
    var s := Digits(timestamp);
    s[if |s| > IdLength then |s| - IdLength else 0..]
  }

  /** The id read as a number is the timestamp modulo 10^10. */
  lemma IdValue(timestamp: nat)
    ensures AllDigits(IdOf(timestamp))
    ensures Value(IdOf(timestamp)) == timestamp % Pow10(IdLength)
  {
    var s := Digits(timestamp);
    ValueOfDigits(timestamp);
    if |s| > IdLength {
      ValueOfSuffix(s, |s| - IdLength);
    } else {
      DigitsLength(timestamp);
      Pow10Monotone(|s|, IdLength);
      ModUnique(timestamp, Pow10(IdLength), 0, timestamp);
    }
  }

  /** Every timestamp from 10^9 ms on (12 January 1970) yields a full ten-character id. */
  lemma IdHasFullLength(timestamp: nat)
    requires timestamp >= Pow10(IdLength - 1)
    ensures |IdOf(timestamp)| == IdLength
  {
    var s := Digits(timestamp);
    DigitsLength(timestamp);
    if |s| < IdLength {
      Pow10Monotone(|s|, IdLength - 1);
    }
  }

  /** Two workouts created less than 10^10 ms (about 115 days) apart, and not
      in the same millisecond, get different ids. */
  lemma IdsDistinct(t1: nat, t2: nat)
    requires t1 < t2 < t1 + Pow10(IdLength)
    ensures IdOf(t1) != IdOf(t2)
  {
    var p := Pow10(IdLength);
    RemaindersDiffer(t1, t2, p);
    IdValue(t1);
    IdValue(t2);
  }

  /** `_setDescription`: the type with its first letter upper-cased, " on ",
      the month's name and the day of the month. */
  function Description(typeName: string, date: Moment): (d: string)
    requires |typeName| > 0 && date.month < 12
    ensures |d| > |typeName| + 4 + |Digits(date.day)|
    ensures d[..|typeName|] == Capitalize(typeName) && d[|typeName|..|typeName| + 4] == " on "
    ensures d[|d| - |Digits(date.day)| - 1..] == " " + Digits(date.day)
  {
    Capitalize(typeName) + " on " + Months[date.month] + " " + Digits(date.day)
  }

  /** What a description says, read back from its text. */
  datatype DescriptionParts = DescriptionParts(typeLabel: string, month: nat, day: nat)

  /** The inverse of Description: four space-separated words, the second of
      them "on", the third a month's name and the fourth a day number. */
  function ParseDescription(s: string): (r: Option<DescriptionParts>)
    ensures r.Some? ==> r.value.month < 12
  {
    var w := Words(s);
    if |w| != 4 || w[1] != "on" then None
    else match (IndexOf(Months, w[2]), ParseNat(w[3]))
      case (Some(m), Some(d)) => Some(DescriptionParts(w[0], m, d))
      case _ => None
  }

  lemma MonthNamesDistinct()
    ensures forall i, j :: 0 <= i < j < |Months| ==> Months[i] != Months[j]
  {
  }

  /** Each month's name is found at its own index. */
  lemma MonthIndex(m: nat)
    requires m < |Months|
    ensures IndexOf(Months, Months[m]) == Some(m)
  {
    MonthNamesDistinct();
  }

  lemma MonthNamesHaveNoSpace()
    ensures forall i :: 0 <= i < |Months| ==> ' ' !in Months[i]
  {
  }

  lemma {:induction false} DigitsHaveNoSpace(n: nat)
    ensures ' ' !in Digits(n)
  {
    assert AllDigits(Digits(n));
  }

  /** A description splits into its four words. */
  lemma DescriptionWords(typeName: string, date: Moment)
    requires |typeName| > 0 && ' ' !in typeName && date.month < 12
    ensures Words(Description(typeName, date))
      == [Capitalize(typeName), "on", Months[date.month], Digits(date.day)]
  {
    var heading, month, day := Capitalize(typeName), Months[date.month], Digits(date.day);
    var tail := month + " " + day;
    var line := heading + " " + ("on" + " " + tail);
    assert Description(typeName, date) == line;
    assert Words(tail) == [month, day] by {
      MonthNamesHaveNoSpace();
      DigitsHaveNoSpace(date.day);
      WordsOfJoin(month, day);
      WordsOfWord(day);
    }
    assert Words("on" + " " + tail) == ["on", month, day] by {
      WordsOfJoin("on", tail);
    }
    assert Words(line) == [heading, "on", month, day] by {
      WordsOfJoin(heading, "on" + " " + tail);
    }
  }

  /** A description reads back as the capitalized type, the month and the day
      it was built from. */
  lemma DescriptionRoundTrip(typeName: string, date: Moment)
    requires |typeName| > 0 && ' ' !in typeName && date.month < 12
    ensures ParseDescription(Description(typeName, date))
      == Some(DescriptionParts(Capitalize(typeName), date.month, date.day))
  {
    DescriptionWords(typeName, date);
    MonthIndex(date.month);
    ParseDigits(date.day);
  }

  /** Two workouts of the same type with the same description were created on
      the same day of the same month. */
  lemma DescriptionDeterminesDate(typeName: string, d1: Moment, d2: Moment)
    requires |typeName| > 0 && ' ' !in typeName && d1.month < 12 && d2.month < 12
    requires Description(typeName, d1) == Description(typeName, d2)
    ensures d1.month == d2.month && d1.day == d2.day
  {
    DescriptionRoundTrip(typeName, d1);
    DescriptionRoundTrip(typeName, d2);
  }

  /** `new Running(coords, distance, duration, cadence)` at the clock reading
      `date`: `calcPace` stores duration / distance (min/km). */
  function NewRunning(date: Moment, coords: Coords, distance: real, duration: real, cadence: real): (w: Workout)
    requires ValidMoment(date) && distance != 0.0
    ensures w.Running? && w.date == date && w.coords == coords
    ensures w.distance == distance && w.duration == duration && w.cadence == cadence
    ensures w.id == IdOf(date.timestamp) && w.click == 0
    ensures w.description == Description(TypeName(w), date)
    ensures w.pace * distance == duration
    ensures distance > 0.0 && duration > 0.0 ==> w.pace > 0.0
  {
    var pace := duration / distance;
    Running(date, IdOf(date.timestamp), coords, distance, duration, 0, Description("running", date), cadence, pace)
  }

  /** `new Cycling(coords, distance, duration, elevationgain)` at the clock
      reading `date`: `calcSpeed` stores distance / (duration / 60) (km/h). */
  function NewCycling(date: Moment, coords: Coords, distance: real, duration: real, elevationGain: real): (w: Workout)
    requires ValidMoment(date) && duration != 0.0
    ensures w.Cycling? && w.date == date && w.coords == coords
    ensures w.distance == distance && w.duration == duration && w.elevationGain == elevationGain
    ensures w.id == IdOf(date.timestamp) && w.click == 0
    ensures w.description == Description(TypeName(w), date)
    ensures w.speed * duration == 60.0 * distance
    ensures distance > 0.0 && duration > 0.0 ==> w.speed > 0.0
  {
    var speed := distance / (duration / 60.0);
    Cycling(date, IdOf(date.timestamp), coords, distance, duration, 0, Description("cycling", date), elevationGain, speed)
  }

  /** `clicks()`: one more interaction, every other field as it was. */
  function Clicked(w: Workout): (r: Workout)
    ensures r.click == w.click + 1
    ensures r.(click := w.click) == w
  {
    w.(click := w.click + 1)
  }

  /** What every workout the app creates satisfies: its date is a clock
      reading, its distance and duration are positive (and its cadence, for a
      run), its pace or speed is positive and agrees with them, and apart from its click count it is exactly what its variant's
      constructor builds from its inputs. */
  predicate WellFormed(w: Workout) {
    && ValidMoment(w.date)
    && w.distance > 0.0 && w.duration > 0.0
    && match w
       case Running(date, id, coords, distance, duration, _, description, cadence, pace) =>
         && cadence > 0.0
         && pace > 0.0 && pace * distance == duration
         && Running(date, id, coords, distance, duration, 0, description, cadence, pace)
            == NewRunning(date, coords, distance, duration, cadence)
       case Cycling(date, id, coords, distance, duration, _, description, elevationGain, speed) =>
         && speed > 0.0 && speed * duration == 60.0 * distance
         && Cycling(date, id, coords, distance, duration, 0, description, elevationGain, speed)
           == NewCycling(date, coords, distance, duration, elevationGain)
  }

  /** A well-formed workout carries the id and description of its creation time. */
  lemma WellFormedFields(w: Workout)
    requires WellFormed(w)
    ensures w.id == IdOf(w.date.timestamp)
    ensures w.description == Description(TypeName(w), w.date)
  {
    match w
    case Running(date, _, coords, distance, duration, _, _, cadence, _) =>
      var v := NewRunning(date, coords, distance, duration, cadence);
      assert w.id == v.id && w.description == v.description && TypeName(w) == TypeName(v);
    case Cycling(date, _, coords, distance, duration, _, _, elevationGain, _) =>
      var v := NewCycling(date, coords, distance, duration, elevationGain);
      assert w.id == v.id && w.description == v.description && TypeName(w) == TypeName(v);
  }

  /** Clicking a workout keeps it well formed. */
  lemma ClickedWellFormed(w: Workout)
    requires WellFormed(w)
    ensures WellFormed(Clicked(w))
  {
  }

  /** The description of a new running workout reads "Running on <Month> <day>". */
  lemma RunningDescription(date: Moment, coords: Coords, distance: real, duration: real, cadence: real)
    requires ValidMoment(date) && distance != 0.0
    ensures ParseDescription(NewRunning(date, coords, distance, duration, cadence).description)
      == Some(DescriptionParts("Running", date.month, date.day))
  {
    DescriptionRoundTrip("running", date);
    assert Capitalize("running") == "Running";
  }

  /** The description of a new cycling workout reads "Cycling on <Month> <day>". */
  lemma CyclingDescription(date: Moment, coords: Coords, distance: real, duration: real, elevationGain: real)
    requires ValidMoment(date) && duration != 0.0
    ensures ParseDescription(NewCycling(date, coords, distance, duration, elevationGain).description)
      == Some(DescriptionParts("Cycling", date.month, date.day))
  {
    DescriptionRoundTrip("cycling", date);
    assert Capitalize("cycling") == "Cycling";
  }

  /** A 10 km run in 50 min is a pace of 5 min/km; a 20 km ride in 60 min is 20 km/h. */
  lemma MetricExamples(date: Moment, coords: Coords)
    requires ValidMoment(date)
    ensures NewRunning(date, coords, 10.0, 50.0, 178.0).pace == 5.0
    ensures NewCycling(date, coords, 20.0, 60.0, 400.0).speed == 20.0
  {
  }

  /** A running workout created on the fifth of March. */
  lemma DescriptionExample(timestamp: nat)
    ensures Description("running", Moment(timestamp, 2, 5)) == "Running on March 5"
  {
    assert Capitalize("running") == "Running";
    assert Digits(5) == "5";
  }
}
