# Evntly core logic in Dafny

Evntly is an Android app for discovering events: users browse a map, add events whose
location is picked from geocoding suggestions, and sign in with email and password. This
project models the app's decision logic and proves properties of it:

- **Geocoding result mapping** (`NominatimMappers`): a Nominatim search result
  (`NominatimPlaceDto` with its optional `AddressDto`) becomes a `PlaceSuggestion`. The title
  is the first comma-delimited part of the display name, trimmed. The subtitle is
  "city-like part, country", or absent when that text is blank. Coordinates that do not
  parse become 0.0.
- **Add-event form** (`AddEventScreen`): the form is a class with the screen's remembered
  fields and one method per edit handler. The price filter keeps only text of the pattern
  `^\d{0,8}(\.\d{0,2})?$`. A character scanner is proved equal to a declarative reading of
  that pattern. Editing the location forgets the picked coordinates, and picking a suggestion
  writes "title, subtitle". The module also holds form validity, the save-enabled flag and
  the rule for the error / no-results line.
- **Authentication state** (`Auth`): `AuthUiState` with its loading flag, error message and
  current user. Each view-model flow is a begin step and a complete step that receives the
  repository's `Result`. Sign-out restores the initial state. Lemmas cover whole sequences
  of steps.
- **Map markers** (`MapScreen`): every event with both coordinates yields one marker, in list
  order, showing the event's position, name and location.

`KotlinText` gives the Kotlin standard-library string functions the code uses
(`Char.isWhitespace`, `isBlank`, `trim`, `ifBlank`, `substringBefore`, `listOfNotNull`,
`joinToString`). `Domain` holds the app's records. `Wrappers` models nullable values.

Modelling choices:

- Kotlin `Double` is modelled as `real`.
- A string is a sequence of characters.
- `String.toDoubleOrNull` is not modelled. Every operation that reads a number takes the
  parser as a parameter (`DoubleParser`). `AddEventForm.FormValidity` states a hypothesis,
  `ReadsPricesAsNonNegative`, about how that parser treats prices.
- The place search that produces the form's `PlaceUiState` is not part of this model. The
  form only consumes a snapshot of that state.

The subtitle (`ifBlank { null }`) is omitted whenever the joined text is blank, for instance a
blank city and no country, not only when both parts are absent.

## Model

| member | source | states |
|---|---|---|
| `KotlinText.Trim` | app/src/main/java/com/example/evntly/data/mapper/NominatimMappers.kt:17 | the result is the slice of the input left after dropping whitespace at both ends: blank on either side, and it neither starts nor ends with whitespace |
| `KotlinText.SubstringBefore` | app/src/main/java/com/example/evntly/data/mapper/NominatimMappers.kt:17 | the result is the prefix before the first delimiter, holds no delimiter, and is the whole string when the delimiter is missing |
| `KotlinText.IfBlankNull` | app/src/main/java/com/example/evntly/data/mapper/NominatimMappers.kt:15 | absent exactly when the text is blank, and otherwise the text itself |
| `KotlinText.TrimIdempotent` | app/src/main/java/com/example/evntly/data/mapper/NominatimMappers.kt:17 | trimming a trimmed text changes nothing |
| `KotlinText.ListOfNotNull2` | app/src/main/java/com/example/evntly/data/mapper/NominatimMappers.kt:15 | the list holds the present values, in order: its length counts them, the first present one leads and the last present one ends it |
| `KotlinText.JoinToString` | app/src/main/java/com/example/evntly/data/mapper/NominatimMappers.kt:15 | no parts join to "", one part to itself, two parts to the first, the separator and the second |
| `NominatimMappers.CityLike` | app/src/main/java/com/example/evntly/data/mapper/NominatimMappers.kt:13 | city if present, else town, else village; absent when the address is absent |
| `NominatimMappers.Subtitle` | app/src/main/java/com/example/evntly/data/mapper/NominatimMappers.kt:15 | the subtitle is absent exactly when the joined "city-like, country" text is blank |
| `NominatimMappers.ToSuggestion` | app/src/main/java/com/example/evntly/data/mapper/NominatimMappers.kt:10-21 | the title is the trimmed text before the first ',' (the whole name when there is none); latitude and longitude are the parsed values, or 0.0 when parsing fails |
| `NominatimMappers.TitleHasNoComma` | app/src/main/java/com/example/evntly/data/mapper/NominatimMappers.kt:17 | the title never contains ',' |
| `NominatimMappers.TitleWithoutComma` | app/src/main/java/com/example/evntly/data/mapper/NominatimMappers.kt:17 | with no comma in the display name the title is the whole name, trimmed |
| `NominatimMappers.SubtitleCases` | app/src/main/java/com/example/evntly/data/mapper/NominatimMappers.kt:13-15 | both parts give exactly "cityLike, country"; one part gives that part unless it is blank; no part gives no subtitle |
| `NominatimMappers.IgnoresOtherFields` | app/src/main/java/com/example/evntly/data/mapper/NominatimMappers.kt:10-21 | results that agree on display name, lat, lon, city, town, village and country map to the same suggestion; place id, house number, road, state and postcode are ignored |
| `NominatimMappers.TartuExample` | app/src/main/java/com/example/evntly/data/mapper/NominatimMappers.kt:10-21 | "Tartu, Estonia" with city Tartu and country Estonia maps to title "Tartu", subtitle "Tartu, Estonia" and the parsed coordinates |
| `AddEventScreen.ScanPrice` | app/src/main/java/com/example/evntly/ui/screens/add/AddEventScreen.kt:101-104 | the character scanner accepts a text exactly when it matches the price pattern |
| `AddEventScreen.EmptyPriceMatches` | app/src/main/java/com/example/evntly/ui/screens/add/AddEventScreen.kt:171 | the empty price matches the pattern, so the filter's `isEmpty()` test admits nothing more |
| `AddEventScreen.PriceShape` | app/src/main/java/com/example/evntly/ui/screens/add/AddEventScreen.kt:103 | a matching price has at most 11 characters, only ASCII digits and '.', at most one '.', at most 8 digits before it and at most 2 after it, and at most 8 characters when it has no '.' |
| `AddEventScreen.StatusLineOf` | app/src/main/java/com/example/evntly/ui/screens/add/AddEventScreen.kt:216-222 | the line is hidden exactly when loading, or a place is picked, or there is no error and (location shorter than 3 or suggestions exist); when shown it is the error's text if there is an error and "no results" otherwise |
| `AddEventScreen.SelectionText` | app/src/main/java/com/example/evntly/ui/screens/add/AddEventScreen.kt:234 | the title alone without a subtitle, and "title, subtitle" with one |
| `AddEventScreen.SelectionTextExample` | app/src/androidTest/java/com/example/evntly/AddEventScreenTest.kt:76 | picking ("Tartu, Estonia", "Tartumaa") writes "Tartu, Estonia, Tartumaa" |
| `AddEventScreen.AddEventForm.HasSelection` | app/src/main/java/com/example/evntly/ui/screens/add/AddEventScreen.kt:56 | there is a selection exactly when both coordinates are set |
| `AddEventScreen.AddEventForm.IsPriceValid` | app/src/main/java/com/example/evntly/ui/screens/add/AddEventScreen.kt:101-104 | the empty price is valid; a valid price has at most 11 characters, all ASCII digits or '.' |
| `AddEventScreen.AddEventForm.IsPricePositive` | app/src/main/java/com/example/evntly/ui/screens/add/AddEventScreen.kt:106 | a positive price parses; for a pattern-valid price and a parser that reads prices as `toDoubleOrNull` does, it holds exactly when the price is neither "" nor "." |
| `AddEventScreen.AddEventForm.IsFormValid` | app/src/main/java/com/example/evntly/ui/screens/add/AddEventScreen.kt:107-112 | a valid form has non-empty name, description and location, a date, a price that parses, of at most 11 characters |
| `AddEventScreen.AddEventForm.SaveEnabled` | app/src/main/java/com/example/evntly/ui/screens/add/AddEventScreen.kt:260 | when the button is enabled, the date, the non-negative parsed price and both coordinates all have values |
| `AddEventScreen.AddEventForm.constructor` | app/src/main/java/com/example/evntly/ui/screens/add/AddEventScreen.kt:47-54 | every text is empty, no date and no coordinates are set, and the price has the pattern |
| `AddEventScreen.AddEventForm.OnNameChange` | app/src/main/java/com/example/evntly/ui/screens/add/AddEventScreen.kt:135 | the name becomes the edited text and nothing else changes |
| `AddEventScreen.AddEventForm.OnDateTimePicked` | app/src/main/java/com/example/evntly/ui/screens/add/AddEventScreen.kt:84 | the date becomes the picked date and nothing else changes |
| `AddEventScreen.AddEventForm.OnPriceChange` | app/src/main/java/com/example/evntly/ui/screens/add/AddEventScreen.kt:170-174 | a matching edit is stored and any other edit leaves the price unchanged, so the price keeps the pattern |
| `AddEventScreen.AddEventForm.OnDescriptionChange` | app/src/main/java/com/example/evntly/ui/screens/add/AddEventScreen.kt:186 | the description becomes the edited text and nothing else changes |
| `AddEventScreen.AddEventForm.OnLocationChange` | app/src/main/java/com/example/evntly/ui/screens/add/AddEventScreen.kt:57-63 | the location becomes the text and both coordinates are cleared, so there is no selection |
| `AddEventScreen.AddEventForm.OnSuggestionSelected` | app/src/main/java/com/example/evntly/ui/screens/add/AddEventScreen.kt:233-236 | the location becomes the suggestion's display text and both of its coordinates are copied, so there is a selection |
| `AddEventScreen.AddEventForm.Save` | app/src/main/java/com/example/evntly/ui/screens/add/AddEventScreen.kt:245-260 | saving needs the enabled button; the event carries the form's name, date, parsed price, description, location and coordinates; the price is non-negative and both coordinates are set |
| `AddEventScreen.AddEventForm.FormValidity` | app/src/main/java/com/example/evntly/ui/screens/add/AddEventScreen.kt:101-112 | for a pattern-valid price and a parser that reads prices as `toDoubleOrNull` does, the form is valid exactly when name, description and location are non-blank, a date is set and the price is neither "" nor "." |
| `Auth.AuthUiState.IsLoggedIn` | app/src/main/java/com/example/evntly/ui/viewmodel/AuthViewModel.kt:28-29 | logged in exactly when a current user is set |
| `Auth.Begin` | app/src/main/java/com/example/evntly/ui/viewmodel/AuthViewModel.kt:59 | beginning a flow sets loading, clears the error and keeps the user |
| `Auth.Complete` | app/src/main/java/com/example/evntly/ui/viewmodel/AuthViewModel.kt:63-79 | completing stops loading; an error is shown exactly on failure, as the error's message or the fallback text; success installs the returned user and failure keeps the user |
| `Auth.Apply` | app/src/main/java/com/example/evntly/ui/viewmodel/AuthViewModel.kt:54-165 | after a begin step the state is loading with no error; after any other step it is not loading; an error shows exactly after a failed completion, and it is the error's message or else that flow's fallback ("Sign-in failed", "Sign-up failed", "Failed to load user profile"); sign-out always gives the initial state |
| `Auth.CurrentUserIsLatestInstalled` | app/src/main/java/com/example/evntly/ui/viewmodel/AuthViewModel.kt:63-165 | after any run of steps the current user was installed by the latest successful completion or sign-out, or is the starting user when no step installed one |
| `Auth.LastStepDecidesFlags` | app/src/main/java/com/example/evntly/ui/viewmodel/AuthViewModel.kt:59-79 | after any run the state is loading exactly when the last step began a flow, and shows an error exactly when the last step was a failed completion |
| `Auth.SignInSuccessLogsIn` | app/src/main/java/com/example/evntly/ui/viewmodel/AuthViewModel.kt:58-80 | a successful sign-in from any state ends not loading, with no error, logged in as the returned profile |
| `Auth.FailedFlowKeepsUser` | app/src/main/java/com/example/evntly/ui/viewmodel/AuthViewModel.kt:72-77 | a failed flow ends not loading, with an error, and with the user it started with |
| `Auth.AuthViewModel.constructor` | app/src/main/java/com/example/evntly/ui/viewmodel/AuthViewModel.kt:19-41 | the initial state is not loading, has no error and is not logged in |
| `Auth.AuthViewModel.SignInBegin` | app/src/main/java/com/example/evntly/ui/viewmodel/AuthViewModel.kt:59 | the state takes the begin step |
| `Auth.AuthViewModel.SignInComplete` | app/src/main/java/com/example/evntly/ui/viewmodel/AuthViewModel.kt:63-79 | the state takes the sign-in completion with fallback "Sign-in failed" |
| `Auth.AuthViewModel.SignUpBegin` | app/src/main/java/com/example/evntly/ui/viewmodel/AuthViewModel.kt:101 | the state takes the begin step |
| `Auth.AuthViewModel.SignUpComplete` | app/src/main/java/com/example/evntly/ui/viewmodel/AuthViewModel.kt:110-126 | the state takes the sign-up completion with fallback "Sign-up failed" |
| `Auth.AuthViewModel.LoadCurrentUserBegin` | app/src/main/java/com/example/evntly/ui/viewmodel/AuthViewModel.kt:132 | the state takes the begin step |
| `Auth.AuthViewModel.LoadCurrentUserComplete` | app/src/main/java/com/example/evntly/ui/viewmodel/AuthViewModel.kt:136-152 | the state takes the load completion; a null profile logs out; the fallback is "Failed to load user profile" |
| `Auth.AuthViewModel.SignOut` | app/src/main/java/com/example/evntly/ui/viewmodel/AuthViewModel.kt:156-165 | whatever the prior state, it becomes exactly the initial state |
| `MapScreen.Located` | app/src/main/java/com/example/evntly/ui/screens/map/MapScreen.kt:155-156 | only events of the list that have both coordinates are kept |
| `MapScreen.MarkerOf` | app/src/main/java/com/example/evntly/ui/screens/map/MapScreen.kt:158-163 | a marker's position is its event's (latitude, longitude), its title the name and its snippet the location |
| `MapScreen.Markers` | app/src/main/java/com/example/evntly/ui/screens/map/MapScreen.kt:155-166 | there are no more markers than events, and each marker is the marker of an event of the list that has both coordinates |
| `MapScreen.LocatedAppend` | app/src/main/java/com/example/evntly/ui/screens/map/MapScreen.kt:155-156 | filtering a concatenation filters each part |
| `MapScreen.MarkersAppend` | app/src/main/java/com/example/evntly/ui/screens/map/MapScreen.kt:155-166 | the markers of a concatenation are the markers of each part, in order |
| `MapScreen.MarkersOfOne` | app/src/main/java/com/example/evntly/ui/screens/map/MapScreen.kt:155-166 | one event yields one marker when it has both coordinates and none otherwise |
| `MapScreen.MarkerAt` | app/src/main/java/com/example/evntly/ui/screens/map/MapScreen.kt:155-166 | an event with both coordinates has its marker right after the markers of the events before it |
| `MapScreen.MarkersInOrder` | app/src/main/java/com/example/evntly/ui/screens/map/MapScreen.kt:155-166 | markers keep the order of their events |
| `MapScreen.MarkerSource` | app/src/main/java/com/example/evntly/ui/screens/map/MapScreen.kt:155-166 | every marker is the marker of an event with both coordinates, at the index `MarkerAt` gives it |
| `MapScreen.AddedEventGetsLastMarker` | app/src/main/java/com/example/evntly/ui/screens/map/MapScreen.kt:155-166 | adding an event with both coordinates (as `Save` produces) appends exactly its marker |

## Left out

- The place search behind `searchPlacesDebounced`/`clearPlaceSuggestions`, and the
  `PlaceUiState` it produces, is not modelled; `ui/viewmodel/EventViewModel.kt` declares none
  of them. The form's calls to them (on a location edit and on a pick) are therefore left
  out, and `PlaceUiState` is only an input to `AddEventScreen.StatusLineOf`.
- Coroutine scheduling (`viewModelScope.launch`): each flow is two sequential steps. Two
  interleaved flows are modelled only as some order of their steps.
- Firebase sign-in, sign-up, profile loading and sign-out in `AuthRepository.kt`: their
  results are parameters of the complete steps.
- Room persistence, the DAO, the date converter, the Retrofit client and the Nominatim
  service definition: I/O and configuration without logic.
- `String.toDoubleOrNull` and `String.toDouble`: a parameter, not modelled. The parser
  returns a `real`, so NaN, infinities and binary rounding are not represented.
- AddEventScreen.MatchesPricePattern: reads the pattern's `\d` as an ASCII digit 0-9, as
  desktop `java.util.regex` does. Android's ICU-based regex also matches other Unicode decimal
  digits (for instance U+0663 or the fullwidth digits), and those prices are not modelled.
- AddEventScreen.ScanPrice: accepts only the ASCII reading of the pattern, like
  `MatchesPricePattern`.
- AddEventScreen.AddEventForm.OnPriceChange: keeps only edits of the ASCII reading of the
  pattern. On Android an edit with other Unicode decimal digits is also stored.
- AddEventScreen.AddEventForm.IsPriceValid: inherits the ASCII reading of `\d`.
- AddEventScreen.PriceShape: "only ASCII digits and '.'" holds of the ASCII reading. On
  Android a matching price may also hold other Unicode decimal digits.
- AddEventScreen.AddEventForm.FormValidity: depends on the hypothesis
  `ReadsPricesAsNonNegative` about the parser. It is not proved of the JVM's parser.
- The date and time pickers, the clock-based minimum date, and date formatting: the picked
  date is an argument of `OnDateTimePicked`.
- Compose layout and rendering, navigation, theme colours, the marker icon bitmap, map camera
  and location permission, and the other screens (events list, details, profile, login).
- AddEventScreen.StatusLineOf: the 3-character threshold counts characters, whereas Kotlin's
  `String.length` counts UTF-16 code units, so a location holding a character outside the
  Basic Multilingual Plane is shorter here.
