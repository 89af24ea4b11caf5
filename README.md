# Fire coordination relay and report store, modelled in Dafny

The system relays geotagged incident reports (fire sources, volunteer
positions, fire brigades, fireplane flights) from a chat bot into a shared
`locations` collection of a realtime database, from which a map is drawn.

This project models its two stateful parts:

- **The conversation relay** (`bot/main.py`, module `Relay` in `relay.dfy`).
  The bot keeps a process-wide map `user_data` from user id to a session
  (`last_location`, `category`, `live_id`, `live_active`). `Relay.SessionStore`
  is that map as a class with a `map<int, Session>` field, and each handler is
  a method that updates it and returns the one request the handler decides
  on: `NoRequest`, `Post(payload)` (POST `/report`) or `Put(liveId, payload)`
  (PUT `/report/{liveId}`). The class invariant `Valid()` says that every
  session has a location, that live tracking implies a live id, that a live
  id is uuid text, and that a recorded category is one of the four. Every
  handler preserves it. Every handler except `/cancel` keeps every assigned
  live id (`LiveIdsKept`), and every handler leaves all other users'
  sessions alone (`OthersUnchanged`).
- **The report store service** (`backend/main.py`, module `ReportStore` in
  `report_store.dfy`). It covers the required-field check and its 400
  message, the `float()` coercion of `lat` and `lon` (500 on failure), and
  the write paths into `locations`: POST pushes under a new key and PUT sets
  a caller-chosen key. It also covers the write-then-delete health probe and
  the trailing-slash normalisation of the database URL. `ReportStore.Store`
  holds the `locations` map and the `_health_probe` record. Its invariant
  says that every entry written through the service has all six fields and
  numeric coordinates. The map holds each body as sent (see "## Left out"
  for null and empty values).
- **Relay and store together** (module `RelayToStore` in `relay_to_store.dfy`).
  Every report body the relay builds passes the store's validation
  unchanged. A category choice carried through to the store writes exactly
  what the relay sent, and it is confirmed to the user exactly when the
  database write succeeds. The module also walks through the static-report,
  live-tracking and cancel scenarios.

`common.dfy` holds `Option`, `Result` and the JSON `Value`/`Payload` types
shared by both sides.

Inputs the code obtains from its environment are parameters. These are
`uuid.uuid4()` (`freshId`, required to look like uuid text), `datetime.utcnow()`
and `time.time()` (`now`), and Python's `float()` (`toFloat`, an abstract
parse returning the number or the error text). The database's answer to
each write or delete is a parameter too (`writeError`, `setError`,
`deleteError`: `None` for success, the exception text otherwise).

Behaviour of the code that the model keeps as it is:

- A category choice records the category before the report is sent, so a
  failed submission leaves the category recorded (`bot/main.py:134`).
- `/stop_live` clears only `live_active`, so a later live location reuses
  the old `live_id` (`bot/main.py:71`, `bot/main.py:91`).
- If the probe write succeeds and the delete fails, the health check answers
  500 and the probe record stays (`backend/main.py:35-39`).
- The "no `last_location`" rejection of a category choice
  (`bot/main.py:130`) can never fire on its own. Sessions are created only by
  a location message, which stores the location at once, and `Valid()`
  records this. A choice is rejected exactly when the user has no session.
- An invalid `lat`/`lon` gives status 500, from the handler's catch-all (`backend/main.py:51-56`).

## Model

| member | source | states |
|---|---|---|
| `ReportStore.NormalizeDatabaseUrl` | backend/main.py:18-19 | a non-empty URL ends with '/' afterwards; the original is a prefix and at most one character is added; a URL already ending in '/' (and the empty URL) is unchanged |
| `ReportStore.NormalizeDatabaseUrlIdempotent` | backend/main.py:18-19 | normalising twice gives the same URL as normalising once |
| `ReportStore.MissingFields` | backend/main.py:46-47 | the missing list is empty exactly when all six required fields are present |
| `ReportStore.MissingFrom` | backend/main.py:47 | a key is listed exactly when it is required and absent from the body; the list is empty exactly when none is absent |
| `ReportStore.MissingFieldsCharacterised` | backend/main.py:64-65 | a list equals the missing list if and only if it keeps the order category, lat, lon, user, timestamp, action and holds exactly the required fields the body lacks |
| `ReportStore.MissingFromUnique` | backend/main.py:46-47 | over distinct keys, any order-preserving list of exactly the absent keys is the missing list |
| `ReportStore.MissingFromDependsOnKeysOnly` | backend/main.py:47 | two bodies with the same field names have the same missing list, whatever their values |
| `ReportStore.Join` | backend/main.py:49 | Python's `", ".join`: the body is the definition; the ensures cover the empty list (empty text) and a single name (the name itself) |
| `ReportStore.JoinLength` | backend/main.py:49 | a join holds every name plus one separator between each two, so its length is their total length plus `(n - 1)` separators |
| `ReportStore.JoinTwo` | backend/main.py:49 | two names are joined as first, separator, second, with no trailing separator |
| `ReportStore.MissingFieldsMessage` | backend/main.py:49 | the 400 error text starts with "missing fields: ", and with one missing name it is that prefix followed by the name |
| `ReportStore.MissingCoordinates` | backend/main.py:47 | a body that has the other four fields but neither coordinate lacks exactly `lat` then `lon` |
| `ReportStore.MissingCoordinatesMessage` | backend/main.py:47-49 | such a body is answered "missing fields: lat, lon" |
| `ReportStore.Validate` | backend/main.py:46-52 | a missing field gives 400 with the "missing fields: ..." message; else a failed `lat` conversion gives 500 with its error, then a failed `lon` conversion likewise; success exactly when both convert, and the result has the same keys, the converted numbers at lat/lon, every other field unchanged, and is well formed |
| `ReportStore.PushKey` | backend/main.py:53 | the key chosen for a push is not used by any existing entry |
| `ReportStore.Store.constructor` | backend/main.py:27 | the source only binds a reference to the existing `locations` collection; the model's own starting state is an empty collection with no probe record, which satisfies the store invariant |
| `ReportStore.Store.Health` | backend/main.py:30-39 | 200 exactly when both the probe write and the delete succeed, and then no probe record remains; a failed write answers 500 and changes nothing; a failed delete answers 500 and leaves the probe; `locations` is never touched |
| `ReportStore.Store.Report` | backend/main.py:42-56 | status is 201, 400 or 500; any validation or database error leaves the collection unchanged; 201 exactly when validation and the push succeed, and then exactly one entry is added, under a key not previously present, holding the coerced body; the invariant is kept |
| `ReportStore.Store.ReportPut` | backend/main.py:59-73 | status is 200, 400 or 500; errors leave the collection unchanged; 200 exactly when validation and the write succeed, and then the entry at the id is the coerced body, every other key is unchanged, and the key count grows only if the id was new |
| `ReportStore.UpsertTwice` | backend/main.py:68-71 | two identical successful PUTs give identical answers and leave the collection as one PUT would: one entry at the id |
| `Relay.UserLabel` | bot/main.py:143 | the user field is never empty; it is the username when that is set and non-empty, otherwise `id_` followed by `IntToString` of the id: canonical decimal text that reads back as the user's id |
| `Relay.IntToString` | bot/main.py:143 | the text of an integer is canonical, as Python's `str` writes it: digits with no leading zero, after a '-' exactly when the integer is negative (so never "-0"), and parsing it gives the integer back |
| `Relay.NatToString` | bot/main.py:143 | the digits of a natural number are non-empty and have no leading zero; the first digit is '0' exactly for zero |
| `Relay.NatToStringParseDigits` | bot/main.py:143 | any canonical run of digits is the text of the number it denotes |
| `Relay.IntToStringParseInt` | bot/main.py:143 | any canonical integer text is the text of the integer it denotes, so text and integer correspond one to one |
| `Relay.FallbackLabelsDistinct` | bot/main.py:203 | two different users without a username get different `id_<id>` labels |
| `Relay.IsUuidText` | bot/main.py:91 | the text of `str(uuid.uuid4())`: 36 characters, dashes at 8, 13, 18 and 23, lower-case hex elsewhere, version digit '4' and variant digit 8, 9, a or b |
| `Relay.UuidDashes` | bot/main.py:91 | a uuid text has dashes at exactly positions 8, 13, 18 and 23 |
| `Relay.SampleUuid` | bot/main.py:91 | a uuid4 text such as `123e4567-e89b-42d3-a456-426614174000` satisfies the format |
| `Relay.IsLive` | bot/main.py:90 | Python's truth of `live_period`: a location is not live exactly when the period is absent or zero |
| `Relay.SuccessStatus` | bot/main.py:158-174 | the status counted as success is 200 exactly for a PUT and 201 exactly for a POST |
| `Relay.Prior` | bot/main.py:80-81 | an existing session is taken as it is; a user without one starts from the `{}` the handler creates: no location, no category, no live id, tracking off |
| `Relay.CategoryEmoji` | bot/main.py:159 | the emoji is never empty, and it is the pin exactly when the category is not one of fire, volunteer, brigade, plane |
| `Relay.ReportPayload` | bot/main.py:139-146 | the body has exactly the six required fields, the given category, user and timestamp, the location's coordinates at lat/lon, and action "active" |
| `Relay.Verdict` | bot/main.py:150-188 | the prompt reports success exactly when the store answered the expected status (200 for a PUT, 201 for a POST), with the category's emoji and live flag; an exception gives the error notice; any other status the failure notice |
| `Relay.SessionStore.constructor` | bot/main.py:27 | the map starts empty and valid |
| `Relay.SessionStore.Cancel` | bot/main.py:61-65 | the caller's session is gone, all other sessions are unchanged, no request is sent, and the invariant is kept |
| `Relay.SessionStore.StopLive` | bot/main.py:67-72 | no session is created; an existing one has only `liveActive` cleared; no request; live ids and other users untouched |
| `Relay.SessionStore.HandleLocation` | bot/main.py:74-103 | a session exists afterwards with the new location and its previous category; a live location turns tracking on and keeps an existing live id, using the fresh id only when there was none; a static one leaves the live id and flag as they were; no request; invariant, live ids and other users kept |
| `Relay.SessionStore.SendLocationUpdate` | bot/main.py:190-206 | no session gives no request; otherwise a PUT under the session's live id with the stored location, category and the sender's label |
| `Relay.SessionStore.HandleEditedLocation` | bot/main.py:105-123 | without a session nothing changes and nothing is sent; otherwise only the location changes, and a PUT under the existing live id with the new coordinates is sent exactly when tracking is on and a category is chosen; never a POST |
| `Relay.SessionStore.HandleCategorySelection` | bot/main.py:125-173 | rejected with no request and no change exactly when the user has no session; otherwise the category is recorded and the report, with the stored coordinates, goes by PUT to the live id when tracking is on and by POST otherwise |
| `RelayToStore.RelayPayloadAccepted` | bot/main.py:139-146 | every body the relay builds has no missing field and passes the store's validation unchanged, given that `float()` returns a number as it is |
| `RelayToStore.UuidIsRouteId` | bot/main.py:152-154 | a live id is a non-empty path segment without '/', so the PUT reaches `/report/<id>` |
| `RelayToStore.DeliverCategoryChoice` | bot/main.py:125-188 | a choice without a session is rejected with no change to the sessions or the collection; otherwise the session records the category, the request is a PUT to the session's live id when tracking is on and a POST otherwise, carrying the stored location, the category and the sender's label; it is confirmed exactly when the database write succeeds; a PUT sets the live id's entry to that body, a POST adds one new entry holding it, a failed write leaves the collection unchanged, and the health probe record is never touched |
| `RelayToStore.StaticReportScenario` | bot/main.py:167-179 | a static location {1.0, 2.0} followed by "fire" posts a fire report with those coordinates and action "active", and a 201 answer confirms it with the fire emoji |
| `RelayToStore.LiveTrackingScenario` | bot/main.py:150-157 | a live location, a category, then a moved location give two PUTs to the same fresh id, the second with the new coordinates, leaving exactly one entry holding the latest report |
| `RelayToStore.CancelScenario` | bot/main.py:130-132 | a category chosen after `/cancel` is rejected and nothing is sent |

## Left out

- Messaging transport: the aiogram dispatcher and polling, `/start` and `/help`, reply texts, Markdown, the inline keyboard and the acknowledgement of callbacks (`bot/main.py:8-59`, `bot/main.py:220-228`). They are I/O; only which request is sent, and which notice the prompt is edited to, is modelled.
- The outbound HTTP call itself, its timeouts and logging (`bot/main.py:148-149`, `bot/main.py:185-188`, `bot/main.py:208-218`). The store's answer is an input (`HttpOutcome`). The answer to a background live update is only logged by the source, so it is not modelled.
- HandleLocation: takes the uuid text `freshId` even for a static location; the source draws a uuid only when one is needed, which changes nothing observable.
- Process bootstrap: environment variables, the credential-file check, Firebase initialisation, Flask routing and the port (`backend/main.py:8-27`, `backend/main.py:76-78`). The route's guarantee that an item id is non-empty and has no '/' is a precondition of `ReportPut`.
- Request bodies other than JSON objects (`backend/main.py:45-47`, `backend/main.py:63-65`): only object bodies are modelled. In the source, an array or a string body is tested by element or substring membership, so `[]` or `""` lists all six fields and gets 400. A body that is null, a number or a boolean, an array or string that passes the membership test (indexing it with "lat" raises), and text that is not JSON at all get 500.
- Store.Report, Store.ReportPut and Store.Valid: the model's `locations` map holds each body exactly as sent. The realtime database drops children whose value is null, an empty object or an empty array. Validation only tests that each key exists (`backend/main.py:47`, `backend/main.py:65`). So a body such as `{"category": null, "lat": 1, "lon": 2, "user": null, "timestamp": null, "action": null}` is accepted with 201 or 200, but the database keeps only `lat` and `lon`. "Every entry has all six fields" therefore holds for the model's map, not for the database. Bodies built by the relay hold only texts and numbers (`Relay.ReportPayload`), so the relay's reports are stored whole.
- Floating point: `float()` is an abstract parse and numbers are reals, so IEEE rounding is not modelled.
- PushKey: models only the freshness of the database's push id, not its format (timestamp and random characters).
- Database errors are opaque texts and every write is taken as atomic: a failed write changes nothing.
- The in-place coercion of the request dictionary (`backend/main.py:51-52`, `backend/main.py:68-69`) is modelled as producing the coerced body as a new value. The dictionary belongs to one request and nothing else can see it.
- `unity_draft.cs`: a map-side listener of the database with logging and no logic of its own; it is not part of this model.
- Concurrency: handlers are taken to run one event at a time, as the platform delivers each user's events serially.
- The session map has no eviction in the source, and none is modelled.
