/** The create-event form: its validation schema, the submit gate and the payload it sends. */
module EventForm {
  import opened Wrappers
  import opened Types
  import opened Schema
  import Api

  /** The form fields a validation error can be attached to. */
  datatype Field = Title | Description | LatitudeField | LongitudeField | StartTime | EndTime

  /** The form's values before validation; latitude and longitude are already numbers. */
  datatype Input = Input(
    title: string,
    description: string,
    latitude: real,
    longitude: real,
    startTime: Option<Timestamp>,
    endTime: Option<Timestamp>,
    isPublic: Option<bool>)

  /** The values validation hands to the submit handler. */
  datatype Values = Values(
    title: string,
    description: string,
    latitude: real,
    longitude: real,
    startTime: Timestamp,
    endTime: Option<Timestamp>,
    isPublic: bool)

  /** The fields `formSchema` reports errors on. The end-after-start refinement runs only when every
      field has its type (a missing start date aborts it) and then fails exactly when an end is given
      that is not strictly after the start. */
  function Errors(v: Input): (errs: set<Field>)
    ensures Title in errs <==> !LengthIn(v.title, 3, 100)
    ensures Description in errs <==> !LengthIn(v.description, 10, 500)
    ensures LatitudeField in errs <==> !InRange(v.latitude, -90.0, 90.0)
    ensures LongitudeField in errs <==> !InRange(v.longitude, -180.0, 180.0)
    ensures StartTime in errs <==> v.startTime.None?
    ensures EndTime in errs <==> v.startTime.Some? && v.endTime.Some? && v.endTime.value <= v.startTime.value
  {
    (if LengthIn(v.title, 3, 100) then {} else {Title}) +
    (if LengthIn(v.description, 10, 500) then {} else {Description}) +
    (if InRange(v.latitude, -90.0, 90.0) then {} else {LatitudeField}) +
    (if InRange(v.longitude, -180.0, 180.0) then {} else {LongitudeField}) +
    (if v.startTime.Some? then {} else {StartTime}) +
    (if v.startTime.None? || v.endTime.None? || v.endTime.value > v.startTime.value then {} else {EndTime})
  }

  /** Validation as the resolver applies it: the parsed values, with `isPublic` defaulting to true,
      or the set of fields in error. */
  function Parse(v: Input): (r: Result<Values, set<Field>>)
    ensures r.Success? <==>
              && LengthIn(v.title, 3, 100) && LengthIn(v.description, 10, 500)
              && InRange(v.latitude, -90.0, 90.0) && InRange(v.longitude, -180.0, 180.0)
              && v.startTime.Some?
              && (v.endTime.Some? ==> v.endTime.value > v.startTime.value)
    ensures r.Success? ==>
              r.value == Values(v.title, v.description, v.latitude, v.longitude,
                                v.startTime.value, v.endTime, v.isPublic.GetOr(true))
    ensures r.Failure? ==> r.error == Errors(v) && r.error != {}
  {
    var errs := Errors(v);
    if errs == {} then
      Success(Values(v.title, v.description, v.latitude, v.longitude,
                     v.startTime.value, v.endTime, v.isPublic.GetOr(true)))
    else
      assert errs != {};
      Failure(errs)
  }

  /** The form's default values: empty texts, San Francisco, public, no dates. */
  const Defaults := Input("", "", 37.7749, -122.4194, None, None, Some(true))

  /** The default coordinates pass their range checks; the empty title and description and the
      missing start date do not. */
  lemma DefaultsRejected()
    ensures Errors(Defaults) == {Title, Description, StartTime}
    ensures Parse(Defaults).Failure?
  {
  }

  /** The event `onSubmit` sends: the form's values with the coordinates moved into a
      [longitude, latitude] point, dates as ISO strings and the signed-in user as creator. */
  function Payload(v: Values, creator: User, toIso: Timestamp -> string): (p: Api.NewEvent)
    ensures Latitude(p.location) == v.latitude && Longitude(p.location) == v.longitude
    ensures p.location.coordinates == (v.longitude, v.latitude)
    ensures p.creator == creator.id
    ensures p.title == v.title && p.description == v.description && p.isPublic == v.isPublic
    ensures p.startTime == toIso(v.startTime)
    ensures p.endTime.Some? <==> v.endTime.Some?
    ensures v.endTime.Some? ==> p.endTime.value == toIso(v.endTime.value)
  {
    Api.NewEvent(v.title, v.description, PointAt(v.latitude, v.longitude), toIso(v.startTime),
                 if v.endTime.Some? then Some(toIso(v.endTime.value)) else None,
                 v.isPublic, creator.id)
  }

  /** The whole globe as a viewport. */
  const World := Api.Bounds(-90.0, 90.0, -180.0, 180.0)

  /** Any event that passes validation is placed on the globe, so a world-wide query finds it. */
  lemma ValidPayloadOnGlobe(v: Input, creator: User, toIso: Timestamp -> string)
    requires Parse(v).Success?
    ensures Api.Within(Payload(Parse(v).value, creator, toIso).location, World)
  {
  }

  /** What submitting leads to. */
  datatype Outcome = NotLoggedIn | Created(event: Event)

  /** `onSubmit`: without a signed-in user nothing is created; otherwise the payload is appended to
      the store's events. A viewport around the entered point then returns what it returned before,
      followed by the new event. */
  method OnSubmit(store: Api.MockStore, user: Option<User>, v: Values, toIso: Timestamp -> string, stamp: string)
    returns (outcome: Outcome)
    modifies store
    ensures store.businesses == old(store.businesses)
    ensures user.None? ==> outcome == NotLoggedIn && store.events == old(store.events)
    ensures user.Some? ==>
              && outcome.Created?
              && store.events == old(store.events) + [outcome.event]
              && outcome.event.id == "evt" + stamp
              && outcome.event.interestedCount == 0
              && outcome.event.creator == user.value.id
              && outcome.event.location == PointAt(v.latitude, v.longitude)
              && outcome.event.title == v.title && outcome.event.description == v.description
              && outcome.event.isPublic == v.isPublic
              && outcome.event.startTime == toIso(v.startTime)
              && outcome.event.endTime == (if v.endTime.Some? then Some(toIso(v.endTime.value)) else None)
    ensures user.Some? ==>
              forall b: Api.Bounds {:trigger store.FetchEventsInView(Some(b))} ::
                Api.Within(PointAt(v.latitude, v.longitude), b) ==>
                  store.FetchEventsInView(Some(b)) == old(store.FetchEventsInView(Some(b))) + [outcome.event]
  {
    if user.None? {
      return NotLoggedIn;
    }
    ghost var before := store.events;
    var created := store.CreateNewEvent(Payload(v, user.value, toIso), stamp);
    outcome := Created(created);
    forall b: Api.Bounds | Api.Within(PointAt(v.latitude, v.longitude), b)
      ensures store.FetchEventsInView(Some(b)) == Api.Filter(before, (e: Event) => Api.Within(e.location, b)) + [created]
    {
      Api.FilterAppend(before, created, (e: Event) => Api.Within(e.location, b));
    }
  }
}
