# Football pitch booking: the admission engine

A model, in Dafny, of the booking core of a football-pitch booking
application. The application has two server variants: serverless handlers
under `api/` and an Express server under `backend/`. Both keep one JSON
document with the pitches, the bookings and two id counters. Both run the
same POST /bookings pipeline before a booking is stored:

- no field missing;
- a plausible e-mail address;
- the end after the start;
- no overlapping booking of the same pitch and date (409);
- a known pitch (404);
- the price from the pitch's hourly rate.

Both also answer an advisory availability query from the same three-branch
overlap test.

The model proves three invariants of this path when requests arrive one at a
time:

- bookings of one pitch and date never overlap, under half-open `[start, end)`
  semantics;
- every booking ends after it starts;
- booking ids are never reused.

It also proves the following:

- the exact guard order;
- the price;
- the seeds;
- the sort orders of the listings;
- the effect of each store operation.

Modules, one concept each:

- `Js` covers JavaScript semantics: string `<`, truthiness and `parseInt`.
- `Clock` covers `HH:MM` times.
- `Email` is the address pattern.
- `Entities` holds the records.
- `Schedule` holds the overlap test and the invariants.
- `Pricing` holds the price.
- `Database` covers the seeds, the queries and the `Store` class with its
  mutating operations.
- `Http` holds the responses.
- `Admission` is the POST pipeline.
- `Availability` is the query endpoint.
- `ExpressServer` covers the pitch-by-id and DELETE routes.
- `Vercel` covers the two serverless handlers.
- `Seqs` and `Wrappers` are generic helpers: filter, find, a stable
  insertion sort and `Option`.

The mutating operations follow the source's own form:

- `createPitch`, `createBooking` and `deleteBooking` are methods of
  `Database.Store`.
- The backend's seeding `forEach` is a loop in `Store.SeedIfEmpty`.
- Each handler method is proved equal to a pure transition function such as
  `Admission.Post`, `ExpressServer.Delete` or `Vercel.Bookings`, and the
  invariants are proved about those functions.

The queries re-read the document and write nothing back. They are therefore
functions of the stored sequences. The in-place sort in `getAllPitches` is
never written back, so it is a value-level sort here.

Where the model chooses a concrete reading of JavaScript:

- JavaScript's `<` on strings is `Js.Less`, which compares characters from
  the left. For zero-padded `HH:MM` it agrees with chronological order
  (`Clock.ClockOrderIsChronological`).
- `localeCompare` in the sorts is modelled by the same code-point order.
- `parseInt` is modelled on its argument's string form. It skips leading
  white space, takes an optional sign and a `0x` prefix, then reads the
  longest digit run. No digit gives `NaN`, which is `None` here.
- `pitchId` is absent, a number or a string (`Js.JsArg`). Every other
  request field is absent (`None`) or a string.

## Model

| member | source | states |
|---|---|---|
| Js.Less | backend/server.js:90 | JavaScript's `<` on strings as written: characters from the left, the first difference decides, a proper prefix first; stated by `Js.LessTrichotomous`, `Js.LessTransitive` and `Js.LessAtFirstDifference`. |
| Js.LessTrichotomous | api/database.js:174-176 | Any two strings are equal or one is `<` the other. |
| Js.LessTransitive | api/database.js:174-176 | String `<` is transitive. |
| Js.LessAtFirstDifference | backend/server.js:90 | Two strings that agree on a prefix compare as their first differing characters. |
| Js.LexLessNegativelyTransitive | api/database.js:152-156 | The date-then-start comparison puts any third booking after the first or before the second. |
| Js.Truthy | backend/server.js:79 | `!!pitchId` as written: absent, `0` and `""` are falsy; used by the first guard (`Admission.GuardOrder`). |
| Js.Given | backend/server.js:79 | `!!field` as written for a text field: present and not empty (`Admission.GuardOrder`, `Availability.AnswerShape`). |
| Js.ParseInt | api/database.js:128 | `parseInt` as written: leading white space, sign, `0x` prefix, longest digit run; stated by `Js.ParseIntWithoutDigits` and `Js.ParseIntOfNumberToString`. |
| Js.ParseIntWithoutDigits | api/database.js:128 | `parseInt` of a string with no decimal digit is `NaN`. |
| Js.ParseIntOfNumberToString | backend/server.js:114 | `parseInt` reads back the decimal text of every integer `n`, which is `String(n)` for n below 10^21 in magnitude; so a numeric `pitchId` in that range is stored as itself. |
| Js.ParseIntArgAgrees | api/database.js:128 | `parseInt` of an integer is the integer read back from its decimal text, and `parseInt(undefined)` is `NaN`. |
| Js.ParseIntArg | api/database.js:169 | `parseInt(pitchId)` as written for an absent, numeric or text argument; `Js.ParseIntArgAgrees` ties it to `parseInt` of the argument's text. |
| Clock.Minutes | backend/server.js:107-108 | Only a zero-padded `HH:MM` of the day parses, and its minute count is below 24·60. |
| Clock.ClockOrderIsChronological | backend/server.js:90 | For `HH:MM` times, string `<` agrees with minute order. |
| Email.IsValidEmail | backend/server.js:84-87 | True exactly when the whole address matches `^[^\s@]+@[^\s@]+\.[^\s@]+$`: a non-empty plain name, one `@`, and a plain domain with a `.` that has text on both sides. |
| Email.MatchAt | api/bookings.js:32-35 | In a match, the `@` is the first one, the name before it is plain, and the rest is a dotted plain domain. |
| Email.SplitMatches | api/bookings.js:32-35 | A plain name, an `@` and a dotted plain domain match the pattern. |
| Schedule.ThreeBranchOverlap | api/database.js:173-177 | The three-branch overlap test as written; its meaning is stated by `Schedule.ThreeBranchIsIntersection`. |
| Schedule.ThreeBranchIsIntersection | api/database.js:173-177 | For bookings and requests that end after they start, the three-branch test is exactly half-open interval intersection. |
| Schedule.AdjacentSlotsDoNotConflict | api/database.js:173-177 | Back-to-back slots do not overlap, in either order. |
| Schedule.SameSlotConflicts | backend/database.js:91-95 | An identical slot overlaps. |
| Schedule.ReversedRequestIsNotIntersection | api/database.js:173-177 | For a reversed request (10:30–09:00 against 10:00–11:00), the three-branch test reports an overlap that is not an intersection. |
| Schedule.AppendKeepsSchedule | api/database.js:182-190 | Appending a well-formed booking that clashes with none keeps the no-overlap invariant. |
| Schedule.AppendKeepsIdsFresh | api/database.js:184-185 | Stamping the counter's id and raising the counter keeps ids unique and below the counter. |
| Pricing.TotalPrice | backend/server.js:107-110 | The price is an amount, not `NaN`, exactly when both times parse. |
| Pricing.PriceOfSlot | backend/server.js:107-110 | For a slot that ends after it starts, the price is minutes/60 × rate: a positive length, and a positive price at a positive rate. |
| Pricing.PriceIsAdditive | api/bookings.js:54-58 | Splitting a slot at an inner time splits its price. |
| Pricing.PriceExamples | backend/server.js:107-110 | 09:00–11:00 at 50 costs 100, and 09:30–11:00 is 1.5 hours. |
| Seqs.Filter | api/database.js:168 | `filter`: a stored-order subsequence of the elements that pass the test, keeping each one that does. |
| Seqs.FilterMultiplicity | api/database.js:168 | `filter` keeps every copy of an element that passes and none of one that fails. |
| Seqs.FirstIndex | api/database.js:203 | `findIndex`: the first index whose element passes, or none exactly when no element does. |
| Seqs.Find | api/database.js:128 | `find`: an element exactly when one passes, and then the first one that does. |
| Seqs.RemoveAt | api/database.js:207 | `splice(i, 1)`: the elements before `i` in place and those after it shifted down by one. |
| Seqs.RemoveAtMultiset | api/database.js:207 | `splice(i, 1)` takes out one copy of the element at `i` and nothing else. |
| Seqs.SortBy | api/database.js:163 | The comparator sort: a permutation of its input (order and stability by `Seqs.SortBySorted` and `Seqs.SortByStable`). |
| Seqs.SortBySorted | api/database.js:163 | For a comparator that is a strict weak order, no element is after one it sorts before. |
| Seqs.SortByStable | api/database.js:163 | For a comparator that is a strict weak order, elements that tie keep their input order. |
| Database.ApiInitDB | api/database.js:15-104 | The api `initDB` as written: the saved document, or the seed for a missing or corrupt file (`Database.ApiSeedDocument`). |
| Database.BackendInitDB | backend/database.js:12-24 | The backend `initDB` as written: the empty document for a missing file, a throw for a corrupt one (`Database.BackendStartsEmpty`). |
| Database.Seeded | backend/database.js:132-168 | The seeding step as written: `createPitch` on each seed pitch when there is none (`Database.SeededKeepsInvariants`, `Database.FreshBackendSeedIsApiSeed`). |
| Database.ApiSeedDocument | api/database.js:15-104 | A missing and a corrupt file both give the seed: 4 pitches with ids 1–4, prices 50/35/25/75, no bookings, counters 5 and 1, fresh pitch ids. |
| Database.BackendStartsEmpty | backend/database.js:12-24 | A missing file gives empty lists with both counters 1. A corrupt file gives no document, because the parse throws. |
| Database.FreshBackendSeedIsApiSeed | backend/database.js:131-168 | Seeding a fresh backend store through `createPitch` yields the api seed exactly: ids 1..4 in list order and `nextPitchId = 5`. |
| Database.SeededKeepsInvariants | backend/database.js:133 | Seeding happens only when there is no pitch, leaves the bookings alone and keeps pitch ids fresh. |
| Database.Numbered | backend/database.js:165-167 | The i-th pitch created from a list gets the starting counter plus i. |
| Database.GetPitchById | backend/database.js:44-47 | Gives a pitch exactly when some pitch has id `parseInt(id)`, and then the first such pitch in list order, as `find` does; `NaN` finds none. |
| Database.GetAllPitches | backend/database.js:39-42 | A permutation of the pitches, ordered by name. |
| Database.ByName | backend/database.js:41 | The name comparator `a.name.localeCompare(b.name) < 0` as written, in code-point order; a strict weak order by `Database.ByNameIsStrictWeakOrder`, used by `Database.GetAllPitches`. |
| Database.GetAllPitchesIsStable | backend/database.js:41 | Pitches with the same name keep their stored order, as the stable `sort` does. |
| Database.Enrich | api/database.js:145-151 | The booking with the first matching pitch's name and location, or `'Unknown'` when there is none or the field is empty. |
| Database.EnrichAll | api/database.js:145-151 | The i-th record carries the i-th booking, with the name and location of the first pitch with its id (each `'Unknown'` when empty), or `'Unknown'` for both when no pitch has that id. |
| Database.GetAllBookings | api/database.js:143-157 | A permutation of the enriched bookings, newest date first and, on one date, latest start first. |
| Database.NewestFirst | api/database.js:152-156 | The comparator of `getAllBookings` as written: the later date first, and on one date the later start first; its order is stated by `Database.GetAllBookings`. |
| Database.GetAllBookingsIsStable | api/database.js:152-156 | Bookings with the same date and start keep their stored order. |
| Database.GetBookingsByPitchAndDate | api/database.js:159-164 | Exactly the bookings of that pitch and date, as a multiset, with the earliest start first. |
| Database.StartsEarlier | api/database.js:163 | The start-time comparator as written; its order is stated by `Database.GetBookingsByPitchAndDate`. |
| Database.GetBookingsByPitchAndDateIsStable | api/database.js:161-163 | Bookings of that pitch and date with the same start keep their stored order. |
| Database.CheckAvailability | api/database.js:166-180 | A stored-order subsequence holding every copy of each booking of that pitch and date that passes the three-branch test, and no other booking. |
| Database.FreeIffNoIntersection | api/database.js:166-180 | With well-formed bookings and request, the result is empty exactly when no booking of that pitch and date intersects the slot. |
| Database.AdjacentFreeSameTaken | api/database.js:173-177 | Stored 10:00–11:00 against requested 11:00–12:00 gives an empty result. The same slot requested again is reported. |
| Database.BookingIndex | api/database.js:203 | The index of the first booking with id `parseInt(id)`, or none exactly when no booking has it. |
| Database.AfterDelete | api/database.js:201-210 | No result exactly when no booking has the id; otherwise one entry fewer. |
| Database.AfterDeleteRemovesOne | backend/database.js:119-128 | Deletion removes exactly the found entry and keeps the others in order. |
| Database.DeleteKeepsSchedule | api/database.js:207 | Deletion keeps the no-overlap invariant. |
| Database.DeleteKeepsIdsFresh | api/database.js:201-210 | Deletion keeps ids fresh under the unchanged counter, and the deleted id is gone. |
| Database.CancelFreesSlot | api/database.js:201-210 | After a booking is cancelled in a valid schedule, its own slot is reported free. |
| Database.Store.CreatePitch | backend/database.js:49-58 | The new pitch gets `nextPitchId`, exactly one pitch is appended, and the counter rises by 1. |
| Database.Store.CreateBooking | api/database.js:182-199 | The new booking gets `nextBookingId` and the timestamp, exactly one entry is appended, the counter rises by 1, and the answer is enriched. |
| Database.Store.DeleteBooking | backend/database.js:119-128 | Returns `false` and changes nothing for an absent id. Otherwise it splices out the first match. Counters are untouched. |
| Database.Store.SeedIfEmpty | backend/database.js:131-168 | The loop of `createPitch` calls leaves the seeded document. |
| Database.BackendStartup | backend/database.js:132-168 | Start-up fails only on a corrupt file; otherwise the store is the loaded or empty document, seeded. |
| Database.ApiOpen | api/database.js:107-111 | Each operation sees the saved document, or the seed. |
| Admission.HasAllFields | backend/server.js:79-81 | The required-field guard as written: `pitchId` truthy and the six text fields present and non-empty; stated by `Admission.GuardOrder`. |
| Admission.Decide | backend/server.js:79-122 | The guard chain as written, with its messages and statuses; stated by `Admission.GuardOrder`, `Admission.AdmittedDraft` and `Admission.AdmittedIsFree`. |
| Admission.Post | api/bookings.js:27-72 | The POST transition as written; stated by `Admission.PostEffect`, `Admission.PostKeepsSchedule` and `Admission.PostKeepsIdsFresh`. |
| Admission.GuardOrder | backend/server.js:79-104 | Each refusal comes exactly when every earlier guard passed and its own failed: missing field, email, time order, overlap (409), unknown pitch (404). Otherwise the request is admitted. |
| Admission.ConflictReportedBeforeUnknownPitch | api/bookings.js:43-52 | A conflicting request gets 409 whatever pitches exist. |
| Admission.AdmittedDraft | backend/server.js:101-122 | The admitted booking has the request's fields, `pitch_id = parseInt(pitchId)` equal to the found pitch's id, `start < end`, and the server's price for that pitch. |
| Admission.AdmittedPrice | api/bookings.js:54-58 | For `HH:MM` times the stored price is the duration in hours times `price_per_hour`, and positive for a positive rate. |
| Admission.AdmittedIsFree | backend/server.js:95-98 | When every stored booking is well formed, an admitted booking is well formed and clashes with none of them. |
| Admission.PostEffect | api/bookings.js:27-72 | A refusal writes nothing. Status 201 comes exactly when admitted. Then exactly one booking is appended and returned enriched: the admitted draft with the next id and `created_at`, so `pitch_id = parseInt(pitchId)`, the request's name, email, phone, date and times, and the price computed from the found pitch's rate. |
| Admission.PostKeepsSchedule | backend/server.js:95-124 | A POST preserves non-overlap of same-pitch, same-date bookings. |
| Admission.PostKeepsIdsFresh | api/bookings.js:61-70 | A POST never reuses a booking id. |
| Admission.PostBooking | backend/server.js:74-128 | The handler's response and new store are those of `Post`. |
| Availability.HasAllFields | api/bookings/check-availability.js:19-21 | The required-field guard as written: `pitchId` truthy and the three text fields present and non-empty; stated by `Availability.AnswerShape`. |
| Availability.Answer | backend/server.js:58-71 | The availability answer as written; stated by `Availability.AnswerShape` and `Availability.AvailableIffFree`. |
| Availability.AnswerShape | api/bookings/check-availability.js:19-24 | 400 exactly when a field is missing, and then the bookings play no part. Otherwise 200, with the overlap query's result and `available` iff it is empty. |
| Availability.AvailableIffFree | backend/server.js:58-71 | For well-formed data the slot is available exactly when nothing intersects it. |
| Availability.ReversedRangeIsAnswered | api/bookings/check-availability.js:17-24 | A reversed range is answered, not refused, and reports a booking it does not intersect. |
| ExpressServer.PitchByIdRoute | backend/server.js:25-35 | 200 exactly when some pitch has id `parseInt(id)`, and then the first such pitch, as `find` returns; otherwise 404 'Pitch not found'. |
| ExpressServer.Delete | backend/server.js:131-141 | The DELETE transition as written; stated by `ExpressServer.DeleteEffect`. |
| ExpressServer.DeleteEffect | backend/server.js:131-141 | 404 exactly when no booking has the id, and then nothing changes. Pitches and counters are never touched, and the schedule and fresh ids are kept. |
| ExpressServer.DeleteBookingRoute | backend/server.js:131-141 | The route's response and new store are those of `Delete`. |
| Vercel.BookingsEffect | api/bookings.js:10-79 | Only an accepted POST writes. OPTIONS gives 200 with an empty body. GET gives 200 with `getAllBookings`. Any other method gives 405 with `Allow: GET, POST`. The invariants hold across every request. |
| Vercel.Bookings | api/bookings.js:10-79 | The method dispatch as written; stated by `Vercel.BookingsEffect`. |
| Vercel.ServeBookings | api/bookings.js:3-80 | The handler's response and new store are those of `Bookings`. |
| Vercel.CheckAvailabilityHandler | api/bookings/check-availability.js:10-31 | OPTIONS gives 200. POST gives the query's answer. Any other method gives 405 with `Allow: POST`. |

## Left out

- File persistence is not modelled: reading, writing and creating the directory, and JSON text. A stored file is an input: absent, unparsable or a document. The document is well-typed, and JSON of another shape is not modelled.
- Requests that run at the same time can interleave their read-modify-write cycles. The invariants are proved for requests that run one after another.
- `created_at` comes from the wall clock, so it is a parameter.
- `localeCompare` collation is replaced by code-point order.
- Each string is a sequence of code points. For characters outside the Basic Multilingual Plane this differs from JavaScript's UTF-16 order.
- `Clock.Minutes`: the date parser is modelled only for zero-padded `HH:MM`. Any other text, such as `9:00` or `09:00:30`, gives `NaN` here, although a JavaScript engine may accept it.
- Floating-point arithmetic is not modelled; prices are exact reals.
- Request fields other than `pitchId` are modelled as absent or text. JSON numbers, booleans and objects in those fields are not modelled, and neither are non-integer numbers in `pitchId`.
- Js.ParseIntArg: `pitchId` is modelled as absent, an integer or text. A boolean, array or object is not modelled, although `parseInt` reads some of them (`[3]` gives 3).
- Js.ParseIntOfNumberToString: JSON numbers are doubles here modelled as unbounded integers. `String(n)` is decimal only for `|n| < 10^21`; above that JavaScript writes `1e+21` and `parseInt` reads 1, which the model does not capture.
- Js.ParseIntArgAgrees: a numeric argument is read back as itself for every integer, which matches JavaScript only for `|n| < 10^21`; non-integer doubles are not modelled.
- Schedule.AppendKeepsIdsFresh: the id counters are unbounded naturals. In JavaScript `nextBookingId++` and `nextPitchId++` stop increasing at 2^53, so ids stay fresh there only below that bound.
- Spreading a caller's object can override the assigned `id`. The callers never pass one, so this is not modelled.
- The 500 responses for thrown errors are not modelled.
- CORS headers and middleware are not modelled, and neither are `app.listen` or `res.setHeader` apart from `Allow`.
- The Express routes GET /pitches, GET /bookings and GET /bookings/pitch/:pitchId/date/:date only wrap the modelled queries in a 200 response, so they are not modelled as routes.
- The api variant runs `initDB` on every read, which can rewrite the seed at any time. `Database.ApiOpen` models one read.
- The frontend is not part of this model.
