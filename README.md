# Sync — session store, route handlers, map and location logic in Dafny

Sync is a Next.js web application with a weather page, an email page, a
location page with a Leaflet map, and a text translator. Each page talks to
a server route handler that calls an outside vendor: OpenWeather, Brevo or
Azure Translator. This project models the parts of it that make decisions,
and proves properties about them:

- **The chat session store** shared by the weather and email pages
  (`session_store.dfy`). The store holds an ordered list of sessions, a
  nullable active-session id, and their mirror in `localStorage`. It is a
  generic class `Store<E>` over the entry type. It offers create, delete,
  select, clear-all, append-an-entry, the load effect on mount, and the two
  save effects.
  - The weather page (`weather_page.dfy`) and the email page
    (`email_page.dfy`) each hold one store, under their own keys.
  - Each page splits its async submit handler into a `Begin…` and a
    `Finish…` step on either side of the `await`.
- **`formatRelativeTime`** (`relative_time.dfy`), identical on both pages.
- **The route handlers**:
  - `GET /api/weather` (`weather_api.dfy`);
  - `POST /api/send-email` (`email_api.dfy`);
  - `POST /api/translate` (`translate_api.dfy`);
  - `translateText` in `lib/translator.ts` (`translator.dfy`).

  Each handler is a `Plan` step followed by a `Finish` step. `Plan` checks
  the input and the configuration, and either answers at once or names the
  one vendor request. `Finish` turns the vendor's outcome into the answer.
  The vendor is a function parameter, so "the vendor is not called" means
  that `Plan` answered.
- **`MapComponent`** (`map_component.dfy`): the zoom chosen for an
  accuracy, and the map's layer list across the component's effect and
  cleanup. The map is a `LeafletMap` class, and `RemoveOverlays` is the
  `eachLayer`/`removeLayer` loop.
- **`getLocation`** on the location page (`location_page.dfy`): the support
  check, the loading flag, the copy of the position, the address fallback
  and the error-code messages.

Shared pieces:
- `wrappers.dfy`: `Option`, JavaScript truthiness of an optional string
  (`Truthy`), `response.ok` (`IsOk`: 200–299), and the `Plan` step type.
- `text.dfy`: `String.prototype.trim`, the decimal numeral a template
  literal writes, and substring containment.

`JSON.stringify`/`JSON.parse` of a session list are the store's `encode`
and `decode` parameters; `decode` answers `None` when the text does not
parse. Where a property needs them to be inverse, the lemma requires that
`decode` gives back the one list it saves. `encodeURIComponent` is a
parameter of the weather handler. Ids and timestamps
(`Date.now().toString()`, `toISOString()`) are parameters.

## Model

| member | source | states |
|---|---|---|
| Text.Trim | app/weather/page.tsx:172 | `s.trim()` is the piece `s[i..j]` left when a whitespace-only prefix `s[..i]` and a whitespace-only suffix `s[j..]` are dropped, and it neither starts nor ends with ECMA-262 whitespace |
| Text.TrimStart | app/weather/page.tsx:172 | the leading part that is dropped is all whitespace, and what is kept is a suffix that does not start with whitespace |
| Text.TrimEnd | app/weather/page.tsx:172 | the trailing part that is dropped is all whitespace, and what is kept is a prefix that does not end with whitespace |
| Text.TrimEmptyIffBlank | app/weather/page.tsx:172-175 | `!city.trim()` holds exactly when every character of the city is whitespace, so whitespace-only input is refused |
| Text.TrimIdempotent | app/weather/page.tsx:182-191 | trimming the already trimmed city changes nothing |
| Text.Decimal | app/weather/page.tsx:254-258 | the numeral `${n}` has at least one digit, only digits, and starts with '0' only for zero |
| Text.DecimalRoundTrip | app/weather/page.tsx:254-258 | reading the numeral back gives the number |
| Text.DecimalInjective | lib/translator.ts:30 | different numbers have different numerals |
| RelativeTime.ElapsedSeconds | app/weather/page.tsx:251 | `Math.floor((now - then) / 1000)` is the whole seconds elapsed, rounded toward minus infinity, also for a future timestamp |
| RelativeTime.FormatRelativeTime | app/weather/page.tsx:248-261 | each bucket is chosen exactly when the elapsed seconds fall in its range: below 60 (negative included) is "Just now", then minutes, hours, days, and the locale date from 604800 on or for an unparsable timestamp; the counts are 1–59, 1–23 and 1–6 |
| RelativeTime.FormatRelativeTimeFloors | app/weather/page.tsx:254-258 | the count shown is the elapsed time rounded down to its unit |
| RelativeTime.OlderIsCoarser | app/weather/page.tsx:248-261 | an older timestamp never gets a finer bucket, and never a smaller count within the same bucket |
| RelativeTime.Caption | app/weather/page.tsx:253-258 | "Just now" for the first bucket; otherwise the count's numeral, then the unit letter m, h or d, then " ago" |
| RelativeTime.CaptionInjective | app/email/page.tsx:246-259 | two different buckets or counts never show the same caption |
| SessionStore.RemoveById | app/weather/page.tsx:154 | `filter` never lengthens the list, and no session with the id is left |
| SessionStore.RemoveByIdKeepsOthers | app/weather/page.tsx:154 | `filter` keeps exactly the sessions whose id differs: every kept session was listed, and every listed session with another id is kept |
| SessionStore.RemoveByIdAbsent | app/weather/page.tsx:153-158 | when no session has the id, the list is left as it was |
| SessionStore.RemoveByIdConcat | app/weather/page.tsx:154 | the filter works piece by piece, so the survivors keep their relative order |
| SessionStore.AppendEntry | app/weather/page.tsx:218-231 | the `map` keeps the length, the ids and the timestamps; it appends `e` at the end of every session with the id; it sets that session's title only when it had no entries; every other session is unchanged; nothing changes if the id is absent |
| SessionStore.AppendEntryCount | app/email/page.tsx:184-198 | an append adds exactly one entry per session that has the id, so none when the session has gone |
| SessionStore.Created | app/weather/page.tsx:141-151 | the new session, with no entries, is at index 0; the previous sessions follow unchanged and in order; the new id is active |
| SessionStore.Deleted | app/weather/page.tsx:153-158 | no session with the id remains, every other session survives, and the pointer becomes null exactly when it named that id |
| SessionStore.CreatedKeepsActiveListed | app/weather/page.tsx:148-149 | after create, the active id names a listed session |
| SessionStore.DeletedKeepsActiveListed | app/weather/page.tsx:153-158 | after delete, a non-null pointer still names a listed session |
| SessionStore.AppendedKeepsActiveListed | app/weather/page.tsx:218-231 | an append keeps the active id on a listed session |
| SessionStore.Appended | app/weather/page.tsx:218-231 | an append keeps the pointer and the number of sessions, and adds exactly one entry per session with the id |
| SessionStore.Loaded | app/weather/page.tsx:102-120 | a stored list that is present, non-empty and parses becomes the list, exactly as it parses; the pointer is restored exactly when the saved id is non-empty and some loaded session has it; a missing key, an empty string or unparsable text leaves ([], null) |
| SessionStore.Persisted | app/weather/page.tsx:123-134 | the list is written only when non-empty and the active id only when non-null and non-empty; no key is removed and no other key changes |
| SessionStore.PersistThenLoad | app/weather/page.tsx:102-134 | when parsing gives back the saved list, saving a non-empty state with a listed active session and loading it again gives back the whole state |
| SessionStore.DeletedLastSessionComesBack | app/weather/page.tsx:123-158 | when parsing gives back the one-session list, deleting the only session writes nothing, so storage still holds it, and the next load brings it back as the active session |
| SessionStore.LocalStorage.SetItem | app/weather/page.tsx:125 | the key is set to the value and nothing else changes |
| SessionStore.LocalStorage.RemoveItem | app/weather/page.tsx:163-164 | the key is gone and nothing else changes |
| SessionStore.Store.Mount | app/weather/page.tsx:102-120 | the state after mounting is what `Loaded` makes of the storage, and the active id is listed |
| SessionStore.Store.Persist | app/weather/page.tsx:123-134 | storage becomes `Persisted` of the old storage and the current state |
| SessionStore.Store.CreateSession | app/weather/page.tsx:141-151 | the state becomes `Created` with the title "New Chat", and the active id stays listed |
| SessionStore.Store.Open | app/weather/page.tsx:179-189 | the state becomes `Created` with the given title, and the active id stays listed |
| SessionStore.Store.DeleteSession | app/weather/page.tsx:153-158 | the state becomes `Deleted`, and the active id stays listed |
| SessionStore.Store.Select | app/weather/page.tsx:280 | only the pointer changes, and it names the chosen listed session |
| SessionStore.Store.ClearHistory | app/weather/page.tsx:160-164 | the list is empty, the pointer is null, both storage keys are removed and the other keys are kept |
| SessionStore.Store.Append | app/weather/page.tsx:218-231 | the state becomes `Appended` (the list through `AppendEntry`, the same pointer), and the active id stays listed |
| SessionStore.ClearedThenLoad | app/weather/page.tsx:160-164 | once both keys are removed, the next load starts from ([], null) |
| WeatherPage.WeatherPage.Mount | app/weather/page.tsx:85-120 | the input is empty, loading is off, and the store is loaded under "sync_weather_sessions"/"sync_active_weather_session" |
| WeatherPage.WeatherPage.BeginSearch | app/weather/page.tsx:172-192 | a blank city changes nothing; otherwise loading starts and the trimmed city is captured. With no active session, a session titled with the untruncated trimmed city is created and made active first; otherwise the active session is used and the store is unchanged |
| WeatherPage.WeatherPage.FinishSearch | app/weather/page.tsx:194-246 | only a report is recorded: one entry at the end of the captured session, titled "name, country" if it was the first. An error body or an exception leaves the store unchanged. The input is cleared and loading ends on every path |
| EmailPage.Title | app/email/page.tsx:148 | the title is at most 33 characters; it is the subject when that has at most 30; otherwise it is the first 30 characters followed by "..." |
| EmailPage.TitleAtTheBoundary | app/email/page.tsx:148 | a 30-character subject is kept whole, and a 31-character one is cut to 30 plus "..." |
| EmailPage.EmailPage.Mount | app/email/page.tsx:49-86 | the fields are empty, loading is off, and the store is loaded under "sync_email_sessions"/"sync_active_email_session" |
| EmailPage.EmailPage.BeginSend | app/email/page.tsx:135-157 | sending is refused with no change exactly when a field is empty (no trimming). Otherwise loading starts and the fields are captured. With no active session, one titled by `Title(subject)` is created and made active first |
| EmailPage.EmailPage.FinishSend | app/email/page.tsx:157-244 | exactly one entry is appended to the captured session: "sent" for an ok answer whose body parses, "failed" otherwise. The title becomes `Title(subject)` when the session had no emails, whatever it was. The fields are cleared only after a delivery; loading ends either way |
| WeatherApi.JsRound | app/api/weather/route.ts:67-70 | `Math.round` gives the integer within one half of the value, halves rounding upward |
| WeatherApi.Plan | app/api/weather/route.ts:10-32 | a missing key gives 500 "Weather service not configured" before any parameter is read. A non-empty city wins and is encoded. Coordinates are used only when both are non-empty. Otherwise the answer is 400 "Please provide either city name or coordinates". The URL ends with "&appid=key&units=metric" |
| WeatherApi.Reshape | app/api/weather/route.ts:52-83 | temperatures are rounded; the weather fields come from the first array element; clouds come from `clouds.all`; humidity, pressure, visibility, wind, sunrise, sunset and timezone pass through unchanged |
| WeatherApi.Finish | app/api/weather/route.ts:34-90 | a non-ok answer gives status 200 with the vendor's message if non-empty, else the 404 text, else "Failed to fetch weather data". A report is given exactly for an ok, parsable, complete body, and it is `Reshape` of that body. An ok answer without a report, and a thrown `fetch`, give 500 "Failed to fetch weather data" |
| WeatherApi.Get | app/api/weather/route.ts:3-91 | a missing key gives 500 "Weather service not configured"; with a key and a city the answer is `Finish` of the vendor's reply to the city URL; with a key, no city and both coordinates, `Finish` of the reply to the coordinate URL; with a key and neither, 400 "Please provide either city name or coordinates"; a report needs a key and either a city or both coordinates |
| WeatherApi.ErrorsAreNonEmpty | app/api/weather/route.ts:3-91 | every error the handler answers with has a non-empty message |
| WeatherApi.StatusCodes | app/api/weather/route.ts:3-91 | the status is 200, 400 or 500; 400 only for a missing query; 500 only for missing configuration or an exception |
| EmailApi.HtmlContent | app/api/send-email/route.ts:42-171 | the HTML contains `<title>subject</title>`, `<h1>subject</h1>` and the message block verbatim, unescaped |
| EmailApi.Plan | app/api/send-email/route.ts:4-41 | an unparsable body gives 500 "Failed to send email". A missing or empty field gives 400 before the configuration is read. Missing configuration gives 500 "Email service not configured". The vendor is called exactly when all six values are present, with the configured sender, the single recipient `to` and the subject as given |
| EmailApi.Finish | app/api/send-email/route.ts:175-195 | a non-ok answer keeps the vendor's status, with "Failed to send email" and the vendor body as details. An ok body other than `null` answers 200 with the vendor's messageId and "Email sent successfully". An exception, an unparsable body and an ok `null` body (reading `messageId` throws) give 500 |
| EmailApi.Post | app/api/send-email/route.ts:3-196 | the answer is 400 "Missing required fields: to, subject, message" exactly when the body parsed and a field is missing or empty; it is 500 "Email service not configured" exactly when the fields are all present and a setting is missing |
| EmailApi.SentIffVendorAccepted | app/api/send-email/route.ts:3-196 | success is reported exactly when the vendor accepted with a parsable body other than `null`, and then with 200; every other failure than input or configuration says "Failed to send email" |
| Translator.Plan | lib/translator.ts:7-25 | the function rejects with "Azure Translator API credentials are missing" exactly when a credential is missing, before any request. The URL is endpoint + "/translate?api-version=3.0&to=" + target, unencoded. The body is the one-element array [{text}] |
| Translator.FailureMessage | lib/translator.ts:27-32 | the message starts with "Translation failed: ", has the status's numeral at positions 20 onward, then " - ", and ends with the JSON of the error body, or "{}" |
| Translator.TranslateText | lib/translator.ts:3-36 | the function rejects with the credentials message exactly when a credential is missing; it resolves only when all three credentials are present; once the request is built, the result is `Finish` of the vendor's reply to it |
| Translator.FailureMessagesNameTheStatus | lib/translator.ts:29-31 | two different statuses never give the same failure message |
| Translator.Finish | lib/translator.ts:27-35 | a non-ok answer rejects with `FailureMessage`; an ok one resolves with `data[0]` read as a result object (undefined when there is none); a body that is not JSON, or an ok `null` body (`data[0]` throws), rejects |
| TranslateApi.Plan | app/api/translate/route.ts:6-15 | an unparsable body gives 500; a missing or empty text or targetLanguage gives 400 "Missing text or targetLanguage"; the translator is called exactly when both are present |
| TranslateApi.DetectedOrUnknown | app/api/translate/route.ts:21 | the detected language is the vendor's when non-empty, otherwise "unknown"; it is never empty |
| TranslateApi.Finish | app/api/translate/route.ts:17-31 | a rejection gives 500 with its message. A result with a translation gives 200 with exactly three fields: the first translation's text, the detected language, and the vendor's `to`. A missing result gives 500 |
| TranslateApi.Post | app/api/translate/route.ts:5-33 | a translation is answered only for a request with text and target language and with all three credentials; an error body never comes with status 200; once the fields are valid, the answer is `Finish` of what `translateText` settles with |
| TranslateApi.MissingCredentialsReachTheClient | app/api/translate/route.ts:17-31 | with valid fields and a missing credential, the client gets 500 with the credential message, and no request is built |
| TranslateApi.StatusCodes | app/api/translate/route.ts:5-33 | the status is 200, 400 or 500; it is 400 exactly for missing fields, and 200 exactly for a translation |
| MapView.ZoomLevel | components/MapComponent.tsx:25-31 | the zoom is 19 exactly below 10 m, 18 exactly in [10, 50), 17 exactly in [50, 100), 16 exactly in [100, 500) and 15 exactly from 500 m on |
| MapView.ZoomNonIncreasing | components/MapComponent.tsx:124-130 | a worse accuracy never gives a closer zoom |
| MapView.WithoutOverlaysKeepsTiles | components/MapComponent.tsx:138-142 | after removing overlays, no marker or circle is left and every tile layer is |
| MapView.UpdateMatchesInitial | components/MapComponent.tsx:137-193 | removing the overlays of an initial layer list and re-adding them at a new position gives the initial layer list for that position |
| MapView.LeafletMap.constructor | components/MapComponent.tsx:35-40 | `L.map` makes a map centred on the given position at the given zoom, with no layers, not removed |
| MapView.LeafletMap.AddLayer | components/MapComponent.tsx:51 | the layer is added last and the view is unchanged |
| MapView.LeafletMap.RemoveLayerAt | components/MapComponent.tsx:140 | exactly that layer is removed, the others keep their order, and the view is unchanged |
| MapView.LeafletMap.FlyTo | components/MapComponent.tsx:133-135 | the view moves to the new centre and zoom, and the layers are unchanged |
| MapView.LeafletMap.RemoveOverlays | components/MapComponent.tsx:138-142 | the layers become `WithoutOverlays` of the old layers, in order, and the view is unchanged |
| MapView.LeafletMap.Remove | components/MapComponent.tsx:199 | the map is marked removed and nothing else changes |
| MapView.MapComponent.constructor | components/MapComponent.tsx:18-19 | on the first render `mapRef` is null and no cleanup is pending; whether the container exists is given |
| MapView.MapComponent.Effect | components/MapComponent.tsx:21-194 | without a container nothing is done and no cleanup is returned. With a null `mapRef`, a fresh map is built at the zoom for the accuracy, with two tile layers, the marker, the accuracy circle and the 20 m circle. Otherwise the existing map flies to the position and has its overlays replaced |
| MapView.MapComponent.Cleanup | components/MapComponent.tsx:196-202 | the map is removed and `mapRef` is reset to null |
| MapView.MapComponent.PropsChange | components/MapComponent.tsx:21-203 | as written: a props change runs the cleanup, then the effect, so the old map is removed and a fresh one is built, centred on the new position at the zoom for the new accuracy, with the initial layer list for that position |
| MapView.MapComponent.PropsChangeKeepingMap | components/MapComponent.tsx:120-193 | with the map kept, the same map ends at the new view with the initial layer list for the new position |
| MapView.MapComponent.Unmount | components/MapComponent.tsx:196-202 | the pending cleanup runs, so any map is removed and `mapRef` is null |
| MapView.PropsChangeRebuildsMap | components/MapComponent.tsx:33-34 | after mounting at (0, 0) and moving to (1, 1), the first map is removed and a different map is in its place, at (1, 1) and zoom 19 |
| LocationPage.ErrorMessage | app/location/page.tsx:105-118 | codes 1, 2 and 3 map to their messages; any other code, and only those, gives "Failed to get location" |
| LocationPage.LocationPage.constructor | app/location/page.tsx:63-64 | the page starts with no location and loading off |
| LocationPage.LocationPage.GetLocation | app/location/page.tsx:67-77 | without geolocation support it reports and changes neither loading nor the location; otherwise loading starts and the position is requested |
| LocationPage.LocationPage.OnPosition | app/location/page.tsx:78-102 | latitude, longitude, accuracy and timestamp are copied from the position; the address is the geocoder's `display_name` when it answered, and absent when it failed; loading ends |
| LocationPage.LocationPage.OnError | app/location/page.tsx:103-123 | loading ends, the location is unchanged, and the message is `ErrorMessage(code)` |

## Left out

- Rendering is not modelled: JSX, sidebars, dialogs, toasts, the theme and navigation. A toast's text is modelled only where it carries a decision (`GetLocation`, `OnError`).
- `fetch` and the vendors are outcome parameters: OpenWeather, Brevo, Azure Translator, Nominatim and the geolocation API.
- `JSON.parse` of a stored list is an abstract `decode`. A stored value that parses to something other than a session array is not modelled.
- `encodeURIComponent` is an abstract parameter of the weather handler.
- `Date.now()`, `toISOString` and `toLocaleDateString` are parameters. The locale date is the opaque bucket `LocaleDate`.
- Session ids are not guaranteed unique by the source. No lemma assumes uniqueness; `AppendEntryCount` counts the sessions that share an id.
- Strings are sequences of code points. JavaScript's `slice(0, 30)` and `length` count UTF-16 code units, so the 30-character title rule differs for characters outside the Basic Multilingual Plane.
- Numbers are exact: accuracy, coordinates and temperatures are `real`. Floating point, NaN and infinities are not modelled.
- WeatherApi.JsRound: rounds exact values; the floating-point edge cases of `Math.round` are not modelled.
- WeatherApi.Finish: a reply that lacks a leaf field is answered 200 in the source, with that field undefined or, for a rounded temperature, NaN. The leaf can be the top-level `name`, `visibility` or `timezone`, or a field inside `sys`, `coord`, `main`, `wind` or `clouds`. The model reads every body as having all leaf fields, and treats only a missing nested object as the `TypeError` path.
- WeatherApi.Finish: a non-ok reply whose body is the JSON `null` makes the source throw on `error.message` and answer 500. The body type cannot express a parsed `null`, so this path is not modelled.
- Translator.Finish: a `data[0]` that is not an object with a `translations` array (the first character of a string body, a number) is read as undefined. The translate route throws on each of these alike, so its answer is the same.
- TranslateApi.Finish: a result whose `translations` is a string, or holds non-objects, is answered 200 with undefined fields in the source. The model reads `translations` as an array of translation objects.
- The HTML template is reduced to the parts around the subject and the message. The style sheet and static text are not reproduced.
- The wording of engine errors (`SyntaxError`, `TypeError`) is the opaque `EngineText`.
- Interleavings inside an async handler are not modelled beyond its two steps. Any store operation may run between `Begin…` and `Finish…`; `Append` tolerates a session that has gone.
- React's effect scheduling is reduced to calling `Persist` after a change. Batching of the setters is not modelled.
- WeatherPage.WeatherPage.FinishSearch: requires an error body's message to be non-empty. The handler never answers an empty one (`WeatherApi.ErrorsAreNonEmpty`). With an empty one the source would read fields of a missing report, and that path is not modelled.
- The visibility, temperature and coordinate formatting in the displays is not modelled.
- The retranslate and edit flows of translated text are not modelled. They belong to presentational components outside this model.
- The map's popups, icons, tile URLs, options and fly animation are not modelled. Only the layer kinds, positions and radii are.

## Findings

| source | as written | input that shows it | evidently intended | confidence | as-written member | corrected member |
|---|---|---|---|---|---|---|
| components/MapComponent.tsx:21-203 | The effect depends on latitude, longitude and accuracy, and its cleanup removes the map and nulls `mapRef`. React runs the previous cleanup before re-running the effect, so `mapRef` is always null by then. The "update existing map" branch (lines 119-194) is never taken: every position change destroys the map and builds a new one. | mount at (0, 0, accuracy 5), then change the props to (1, 1, accuracy 5) | the map is built once and removed on unmount; a change of position flies the same map to the new view and replaces only the marker and circles | not executed | MapView.MapComponent.PropsChange | MapView.MapComponent.PropsChangeKeepingMap |
