/** The application's records: places, businesses, events, users and map items. */
module Types {
  import opened Wrappers

  /** A `Date` as the number of milliseconds since the epoch; `Date` comparison compares these. */
  type Timestamp = int

  /** A GeoJSON point. Its coordinates are the pair [longitude, latitude], in that order. */
  datatype GeoLocation = Point(coordinates: (real, real))

  /** coordinates[0]. */
  function Longitude(g: GeoLocation): (lng: real) {
    g.coordinates.0
  }

  /** coordinates[1]. */
  function Latitude(g: GeoLocation): (lat: real) {
    g.coordinates.1
  }

  /** The point at the given latitude and longitude, stored longitude first. */
  function PointAt(latitude: real, longitude: real): (g: GeoLocation)
    ensures Latitude(g) == latitude && Longitude(g) == longitude
  {
    Point((longitude, latitude))
  }

  /** A business's current promotion; `expiresAt` is an optional ISO date string. */
  datatype Promotion = Promotion(title: string, details: string, expiresAt: Option<string>)

  /** A business listing; `description` and `currentPromotion` are optional, `owner` is a user id. */
  datatype Business = Business(
    id: string,
    name: string,
    address: string,
    location: GeoLocation,
    category: string,
    description: Option<string>,
    currentPromotion: Option<Promotion>,
    owner: string)

  /** An event; start and end are ISO date strings, the end is optional, `creator` is a user id. */
  datatype Event = Event(
    id: string,
    title: string,
    description: string,
    location: GeoLocation,
    startTime: string,
    endTime: Option<string>,
    isPublic: bool,
    creator: string,
    interestedCount: int)

  /** The three roles a user can have. */
  datatype Role = RegularUser | BusinessOwner | Admin {

    /** The role's string tag. */
    function Tag(): (t: string)
      ensures t == "user" || t == "business_owner" || t == "admin"
    {
      match this
      case RegularUser => "user"
      case BusinessOwner => "business_owner"
      case Admin => "admin"
    }
  }

  /** Distinct roles have distinct tags, so a tag names exactly one role. */
  lemma RoleTagInjective(a: Role, b: Role)
    ensures a.Tag() == b.Tag() <==> a == b
  {
  }

  /** A signed-in user; `name` is optional. */
  datatype User = User(id: string, email: string, name: Option<string>, role: Role)

  /** A map marker: a business or an event, told apart by the `type` tag. */
  datatype MapItem = BusinessItem(business: Business) | EventItem(event: Event) {

    /** The `type` discriminator of the union. */
    function Kind(): (k: string)
      ensures k == "business" <==> BusinessItem?
      ensures k == "event" <==> EventItem?
    {
      if BusinessItem? then "business" else "event"
    }
  }
}
