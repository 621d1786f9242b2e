/** The app's domain records (package `domain.model`). Kotlin `Double` is modelled as `real`. */
module Domain {
  import opened Wrappers

  /** `java.util.Date`, which the app persists as epoch milliseconds. */
  datatype Date = Date(millis: int)

  /** One autocomplete candidate: a primary line, an optional secondary line and a position. */
  datatype PlaceSuggestion = PlaceSuggestion(
    title: string,
    subtitle: Option<string>,
    latitude: real,
    longitude: real)

  /** A stored event; `id` 0 asks the database to generate one. */
  datatype Event = Event(
    id: int,
    name: string,
    date: Date,
    price: real,
    description: string,
    location: string,
    latitude: Option<real>,
    longitude: Option<real>)

  /** The signed-in user's profile. */
  datatype UserProfile = UserProfile(
    uid: string,
    displayName: string,
    email: string,
    gender: string)
}
