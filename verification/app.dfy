/** The controller (`App` in script.js) reduced to the state it owns: the
    in-memory list of workouts, in creation order, and the copy of it kept in
    the browser's local storage under the key 'workout'. Map, markers, form
    and list rendering are outside the model. */
module Mapty {
  import opened Options
  import opened Search
  import opened Workouts

  /** A form field read with unary `+`: a finite number, or one of the three
      values that are not (an unparsable field gives NaN). */
  datatype Number = Finite(value: real) | NaN | Infinity | NegativeInfinity

  /** `Number.isFinite`. */
  predicate IsFinite(n: Number) {
    n.Finite?
  }

  /** `n > 0` on a JavaScript number: NaN compares false, Infinity true. */
  predicate IsAboveZero(n: Number) {
    match n
    case Finite(v) => v > 0.0
    case Infinity => true
    case NaN => false
    case NegativeInfinity => false
  }

  /** The `isValid(...inputs)` helper of `_newWorkout`: `every` walks the
      inputs from the left and stops at the first that is not finite. */
  function AllFinite(inputs: seq<Number>): (ok: bool)
    ensures ok <==> forall i :: 0 <= i < |inputs| ==> IsFinite(inputs[i])
  {
    if |inputs| == 0 then true
    else IsFinite(inputs[0]) && AllFinite(inputs[1..])
  }

  /** The `isPositive(...inputs)` helper of `_newWorkout`, walking the
      inputs in the same way. */
  function AllPositive(inputs: seq<Number>): (ok: bool)
    ensures ok <==> forall i :: 0 <= i < |inputs| ==> IsAboveZero(inputs[i])
  {
    if |inputs| == 0 then true
    else IsAboveZero(inputs[0]) && AllPositive(inputs[1..])
  }

  /** A submitted form. The type selector decides which extra field is read:
      the cadence for a run, the elevation gain for a ride. */
  datatype Submission =
    | RunningForm(distance: Number, duration: Number, cadence: Number)
    | CyclingForm(distance: Number, duration: Number, elevation: Number)

  /** The guard of `_newWorkout`, branch by branch: a run needs all three
      fields finite and positive; a ride needs all three finite but only
      distance and duration positive. Either way an accepted form has a
      finite positive distance and duration; RunningAcceptedIff and
      CyclingAcceptedIff give each branch exactly. */
  function Accepted(form: Submission): (ok: bool)
    ensures ok ==> && form.distance.Finite? && form.duration.Finite?
                   && form.distance.value > 0.0 && form.duration.value > 0.0
  {
    match form
    case RunningForm(distance, duration, cadence) =>
      var inputs := [cadence, distance, duration];
      assert inputs[1] == distance && inputs[2] == duration;
      AllFinite(inputs) && AllPositive(inputs)
    case CyclingForm(distance, duration, elevation) =>
      var finite, positive := [elevation, distance, duration], [distance, duration];
      assert finite[1] == positive[0] == distance && finite[2] == positive[1] == duration;
      AllFinite(finite) && AllPositive(positive)
  }

  /** A run is accepted exactly when its three fields are finite and
      greater than zero. */
  lemma RunningAcceptedIff(distance: Number, duration: Number, cadence: Number)
    ensures Accepted(RunningForm(distance, duration, cadence)) <==>
      && distance.Finite? && duration.Finite? && cadence.Finite?
      && distance.value > 0.0 && duration.value > 0.0 && cadence.value > 0.0
  {
  }

  /** The elevation gain is only required to be finite: zero and negative
      gains are accepted. */
  lemma CyclingAcceptedIff(distance: Number, duration: Number, elevation: Number)
    ensures Accepted(CyclingForm(distance, duration, elevation)) <==>
      && distance.Finite? && duration.Finite? && elevation.Finite?
      && distance.value > 0.0 && duration.value > 0.0
  {
  }

  /** A run of -1 km is refused, and so is a run with an empty cadence field
      (read as 0); a ride that loses 50 m of elevation is accepted. */
  lemma GuardExamples()
    ensures !Accepted(RunningForm(Finite(-1.0), Finite(30.0), Finite(170.0)))
    ensures !Accepted(RunningForm(Finite(5.0), Finite(30.0), Finite(0.0)))
    ensures Accepted(CyclingForm(Finite(20.0), Finite(60.0), Finite(-50.0)))
  {
    RunningAcceptedIff(Finite(-1.0), Finite(30.0), Finite(170.0));
    RunningAcceptedIff(Finite(5.0), Finite(30.0), Finite(0.0));
    CyclingAcceptedIff(Finite(20.0), Finite(60.0), Finite(-50.0));
  }

  /** The workout an accepted form creates, at the given map position and
      clock reading; a rejected form creates none. */
  function CreateWorkout(form: Submission, coords: Coords, now: Moment): (r: Option<Workout>)
    requires ValidMoment(now)
    ensures r.Some? <==> Accepted(form)
    ensures r.Some? ==> && WellFormed(r.value)
                        && r.value.click == 0 && r.value.date == now && r.value.coords == coords
                        && (r.value.Running? <==> form.RunningForm?)
                        && form.distance == Finite(r.value.distance)
                        && form.duration == Finite(r.value.duration)
    ensures r.Some? && form.RunningForm? ==> form.cadence == Finite(r.value.cadence)
    ensures r.Some? && form.CyclingForm? ==> form.elevation == Finite(r.value.elevationGain)
  {
    match form
    case RunningForm(distance, duration, cadence) =>
      RunningAcceptedIff(distance, duration, cadence);
      if !Accepted(form) then None
      else Some(NewRunning(now, coords, distance.value, duration.value, cadence.value))
    case CyclingForm(distance, duration, elevation) =>
      CyclingAcceptedIff(distance, duration, elevation);
      if !Accepted(form) then None
      else Some(NewCycling(now, coords, distance.value, duration.value, elevation.value))
  }

  predicate AllWellFormed(ws: seq<Workout>) {
    forall i :: 0 <= i < |ws| ==> WellFormed(ws[i])
  }

  /** The ids of a list of workouts, in order. */
  function Ids(ws: seq<Workout>): (ids: seq<string>)
    ensures |ids| == |ws| && forall i :: 0 <= i < |ws| ==> ids[i] == ws[i].id
  {
    seq(|ws|, i requires 0 <= i < |ws| => ws[i].id)
  }

  /** `ws.find(work => work.id === id)`: the first workout with that id. */
  function FindById(ws: seq<Workout>, id: string): (r: Option<Workout>)
    ensures r.Some? ==> exists k :: && 0 <= k < |ws| && ws[k] == r.value && ws[k].id == id
                                     && forall j :: 0 <= j < k ==> ws[j].id != id
    ensures r.None? <==> forall k :: 0 <= k < |ws| ==> ws[k].id != id
  {
    match IndexOf(Ids(ws), id)
    case Some(k) => Some(ws[k])
    case None => None
  }

  /** Appending a workout never changes what an id already present finds;
      an id seen for the first time finds the new workout. */
  lemma FindAfterAppend(ws: seq<Workout>, w: Workout, id: string)
    ensures FindById(ws + [w], id) ==
      if FindById(ws, id).Some? then FindById(ws, id)
      else if w.id == id then Some(w)
      else None
  {
    assert Ids(ws + [w]) == Ids(ws) + [w.id];
    IndexOfAppend(Ids(ws), w.id, id);
  }

  /** What a click on the workout list leads to: a click outside any list
      entry is ignored; a click on an entry centres the map on that workout.
      Before the map exists, `this.#map.setView` is a read on `undefined`,
      and once it exists an entry whose id is not in the list makes
      `setView` read the coordinates of `undefined`; both throw. */
  datatype PopupOutcome = Ignored | CenterOn(coords: Coords) | TypeError

  class App {
    /** `#workouts`: every workout of the session, oldest first. */
    var workouts: seq<Workout>
    /** The local-storage item 'workout': None while nothing is stored. */
    var storage: Option<seq<Workout>>
    /** Whether `#map` has been created. Geolocation answers after the
        constructor has returned, or never, so entries restored from storage
        are on the list before there is a map. */
    var mapLoaded: bool

    /** `new App()`: starts empty, without a map, and loads whatever is
        stored. */
    constructor (stored: Option<seq<Workout>>)
      ensures storage == stored && !mapLoaded
      ensures workouts == if stored.Some? then stored.value else []
    {
      workouts := [];
      storage := stored;
      mapLoaded := false;
      new;
      LoadFromStorage();
    }

    /** `_loadMap`, run when geolocation reports a position: the map is
        created; the workouts and their storage are left as they are. */
    method LoadMap()
      modifies this`mapLoaded
      ensures mapLoaded
    {
      mapLoaded := true;
    }

    /** `_newWorkout`: a form the guard rejects changes nothing (the alert is
        raised before the push and before the save); an accepted one appends
        exactly one workout at the end and saves the whole list. */
    method NewWorkout(form: Submission, coords: Coords, now: Moment) returns (accepted: bool)
      requires ValidMoment(now)
      modifies this
      ensures accepted == Accepted(form)
      ensures accepted ==> && workouts == old(workouts) + [CreateWorkout(form, coords, now).value]
                           && storage == Some(workouts)
      ensures !accepted ==> workouts == old(workouts) && storage == old(storage)
      ensures mapLoaded == old(mapLoaded)
      ensures AllWellFormed(old(workouts)) ==> AllWellFormed(workouts)
    {
      var workout: Workout;
      match form {
        case RunningForm(distance, duration, cadence) =>
          if !AllFinite([cadence, distance, duration]) || !AllPositive([cadence, distance, duration]) {
            return false;
          }
          RunningAcceptedIff(distance, duration, cadence);
          workout := NewRunning(now, coords, distance.value, duration.value, cadence.value);
        case CyclingForm(distance, duration, elevation) =>
          if !AllFinite([elevation, distance, duration]) || !AllPositive([distance, duration]) {
            return false;
          }
          CyclingAcceptedIff(distance, duration, elevation);
          workout := NewCycling(now, coords, distance.value, duration.value, elevation.value);
      }
      workouts := workouts + [workout];
      SaveToStorage();
      accepted := true;
    }

    /** `_setLocaleStorage`: the stored copy becomes the current list,
        replacing whatever was stored before. */
    method SaveToStorage()
      modifies this`storage
      ensures storage == Some(workouts)
    {
      storage := Some(workouts);
    }

    /** `_getLocalStorage`: with nothing stored the list is left as it is;
        otherwise the stored list replaces it, so a load right after a save
        gives back the saved list. */
    method LoadFromStorage()
      modifies this`workouts
      ensures workouts == if storage.Some? then storage.value else old(workouts)
    {
      if storage.None? {
        return;
      }
      workouts := storage.value;
    }

    /** `reset`: the stored item is removed and the page reloads, which
        starts a new App over empty storage and without a map. */
    method Reset()
      modifies this
      ensures storage == None && workouts == [] && !mapLoaded
    {
      storage := None;
      workouts := [];
      mapLoaded := false;
    }

    /** The lookup of `_moveToPopup`: the first workout of the list with the id. */
    function Find(id: string): (r: Option<Workout>)
      reads this
      ensures r.Some? ==> exists k :: && 0 <= k < |workouts| && workouts[k] == r.value && workouts[k].id == id
                                     && forall j :: 0 <= j < k ==> workouts[j].id != id
      ensures r.None? <==> forall k :: 0 <= k < |workouts| ==> workouts[k].id != id
    {
      FindById(workouts, id)
    }

    /** `_moveToPopup`, given the id of the list entry clicked (None when
        the click was outside every entry). */
    function PopupTarget(clickedId: Option<string>): (r: PopupOutcome)
      reads this
      ensures r.Ignored? <==> clickedId.None?
      ensures r.CenterOn? ==> mapLoaded && clickedId.Some? && Find(clickedId.value).Some?
                              && r.coords == Find(clickedId.value).value.coords
      ensures r.TypeError? <==> clickedId.Some? && (!mapLoaded || forall k :: 0 <= k < |workouts| ==> workouts[k].id != clickedId.value)
    {
      match clickedId
      case None => Ignored
      case Some(id) =>
        if !mapLoaded then TypeError
        else
          match Find(id)
          case Some(w) => CenterOn(w.coords)
          case None => TypeError
    }
  }
}
