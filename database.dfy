/** The `db` object shared by both variants: the store document, its seeds,
    the read-only queries over it and the store whose methods change it. */
module Database {
  import opened Wrappers
  import opened Js
  import opened Seqs
  import opened Entities
  import opened Schedule

  /** What `initDB` finds where the document is kept. */
  datatype StoredFile = Absent | Unparsable | Saved(doc: Document)

  // ---------------------------------------------------------------------------
  // Seeds

  /** The four pitches the backend variant seeds through `createPitch`, in order. */
  const SeedPitches: seq<PitchData> := [
    PitchData("Main Pitch", "Sports Complex A", 50.0,
              "https://images.unsplash.com/photo-1575361204480-aadea25e6e68?w=800",
              "Professional-grade football pitch with artificial turf, perfect for matches and training."),
    PitchData("Training Pitch", "Sports Complex A", 35.0,
              "https://images.unsplash.com/photo-1574629810360-7efbbe195018?w=800",
              "Smaller training pitch ideal for practice sessions and small-sided games."),
    PitchData("Community Pitch", "Community Center", 25.0,
              "https://images.unsplash.com/photo-1575361204480-aadea25e6e68?w=800",
              "Affordable community pitch with natural grass, great for casual games."),
    PitchData("Elite Pitch", "Elite Sports Academy", 75.0,
              "https://images.unsplash.com/photo-1574629810360-7efbbe195018?w=800",
              "Premium pitch with floodlights, changing rooms, and professional facilities.")
  ]

  /** The document the api variant writes when the file is missing or corrupt. */
  const ApiSeed: Document := Document(
    [ Pitch(1, "Main Pitch", "Sports Complex A", 50.0,
            "https://images.unsplash.com/photo-1575361204480-aadea25e6e68?w=800",
            "Professional-grade football pitch with artificial turf, perfect for matches and training."),
      Pitch(2, "Training Pitch", "Sports Complex A", 35.0,
            "https://images.unsplash.com/photo-1574629810360-7efbbe195018?w=800",
            "Smaller training pitch ideal for practice sessions and small-sided games."),
      Pitch(3, "Community Pitch", "Community Center", 25.0,
            "https://images.unsplash.com/photo-1575361204480-aadea25e6e68?w=800",
            "Affordable community pitch with natural grass, great for casual games."),
      Pitch(4, "Elite Pitch", "Elite Sports Academy", 75.0,
            "https://images.unsplash.com/photo-1574629810360-7efbbe195018?w=800",
            "Premium pitch with floodlights, changing rooms, and professional facilities.") ],
    [], 5, 1)

  /** The document the backend variant writes when the file is missing. */
  const EmptyDocument: Document := Document([], [], 1, 1)

  /** The api `initDB`: the saved document, or the seed when there is none or
      it does not parse. */
  function ApiInitDB(file: StoredFile): Document
  {
    match file
    case Saved(doc) => doc
    case Absent => ApiSeed
    case Unparsable => ApiSeed
  }

  /** The backend `initDB`: an empty document when there is none; a document
      that does not parse makes `JSON.parse` throw while the module loads
      (`None`). */
  function BackendInitDB(file: StoredFile): (r: Option<Document>)
  {
    match file
    case Absent => Some(EmptyDocument)
    case Unparsable => None
    case Saved(doc) => Some(doc)
  }

  /** The pitches `createPitch` makes of `ds` when called on each in turn,
      starting from the counter value `first`. */
  function Numbered(ds: seq<PitchData>, first: int): (r: seq<Pitch>)
    ensures |r| == |ds|
    ensures forall i :: 0 <= i < |ds| ==> r[i] == ds[i].WithId(first + i)
  {
    if ds == [] then []
    else Numbered(ds[..|ds| - 1], first) + [ds[|ds| - 1].WithId(first + |ds| - 1)]
  }

  /** The document after the backend's seeding step: seeded through
      `createPitch` when it has no pitch, untouched otherwise. */
  function Seeded(doc: Document): Document
  {
    if |doc.pitches| == 0 then
      doc.(pitches := Numbered(SeedPitches, doc.nextPitchId),
           nextPitchId := doc.nextPitchId + |SeedPitches|)
    else doc
  }

  /** Every pitch id is below the counter and no two pitches share one. */
  ghost predicate PitchIdsFresh(ps: seq<Pitch>, nextPitchId: nat)
  {
    && (forall i :: 0 <= i < |ps| ==> ps[i].id < nextPitchId)
    && (forall i, j :: 0 <= i < |ps| && 0 <= j < |ps| && i != j ==> ps[i].id != ps[j].id)
  }

  /** The api seed: four pitches with ids 1 to 4 and prices 50, 35, 25 and 75,
      no booking, counters 5 and 1; a missing and a corrupt file both give it. */
  lemma ApiSeedDocument()
    ensures ApiInitDB(Absent) == ApiInitDB(Unparsable) == ApiSeed
    ensures |ApiSeed.pitches| == 4 && ApiSeed.bookings == []
    ensures forall i :: 0 <= i < 4 ==> ApiSeed.pitches[i].id == i + 1
    ensures [ApiSeed.pitches[0].pricePerHour, ApiSeed.pitches[1].pricePerHour,
             ApiSeed.pitches[2].pricePerHour, ApiSeed.pitches[3].pricePerHour] == [50.0, 35.0, 25.0, 75.0]
    ensures ApiSeed.nextPitchId == 5 && ApiSeed.nextBookingId == 1
    ensures PitchIdsFresh(ApiSeed.pitches, ApiSeed.nextPitchId)
    ensures Scheduled(ApiSeed.bookings) && IdsFresh(ApiSeed.bookings, ApiSeed.nextBookingId)
  {
  }

  /** The backend on a missing file starts from empty lists and counters 1. */
  lemma BackendStartsEmpty()
    ensures BackendInitDB(Absent) == Some(Document([], [], 1, 1))
    ensures BackendInitDB(Unparsable).None?
  {
  }

  /** Seeding a fresh backend store ends in exactly the api seed: ids 1 to 4 in
      list order and `nextPitchId = 5`. */
  lemma FreshBackendSeedIsApiSeed()
    ensures Seeded(BackendInitDB(Absent).value) == ApiSeed
  {
    var ps := Numbered(SeedPitches, 1);
    assert ps[0] == ApiSeed.pitches[0];
    assert ps[1] == ApiSeed.pitches[1];
    assert ps[2] == ApiSeed.pitches[2];
    assert ps[3] == ApiSeed.pitches[3];
  }

  /** Seeding only happens on a document without pitches, keeps the bookings,
      and gives fresh pitch ids. */
  lemma SeededKeepsInvariants(doc: Document)
    requires PitchIdsFresh(doc.pitches, doc.nextPitchId)
    ensures Seeded(doc).bookings == doc.bookings && Seeded(doc).nextBookingId == doc.nextBookingId
    ensures |doc.pitches| > 0 ==> Seeded(doc) == doc
    ensures PitchIdsFresh(Seeded(doc).pitches, Seeded(doc).nextPitchId)
  {
  }

  // ---------------------------------------------------------------------------
  // Pitches

  /** `p.id === parseInt(id)`. */
  function HasRequestedId(id: JsArg): Pitch -> bool
  {
    (p: Pitch) => Some(p.id) == ParseIntArg(id)
  }

  /** `getPitchById`: the first pitch whose id is `parseInt(id)`, if any. */
  function GetPitchById(pitches: seq<Pitch>, id: JsArg): (r: Option<Pitch>)
    ensures r.Some? <==> exists k :: 0 <= k < |pitches| && Some(pitches[k].id) == ParseIntArg(id)
    ensures r.Some? ==> r.value in pitches && Some(r.value.id) == ParseIntArg(id)
    ensures ParseIntArg(id).None? ==> r.None?
    ensures forall k :: 0 <= k < |pitches| && Some(pitches[k].id) == ParseIntArg(id)
                        && (forall m :: 0 <= m < k ==> Some(pitches[m].id) != ParseIntArg(id)) ==>
              r == Some(pitches[k])
  {
    Find(pitches, HasRequestedId(id))
  }

  /** `a.name.localeCompare(b.name) < 0`. */
  function ByName(): (Pitch, Pitch) -> bool
  {
    (a: Pitch, b: Pitch) => Less(a.name, b.name)
  }

  lemma ByNameIsStrictWeakOrder()
    ensures StrictWeakOrder(ByName())
  {
    forall a: Pitch, b: Pitch | ByName()(a, b)
      ensures !ByName()(b, a)
    {
      LessAsymmetric(a.name, b.name);
    }
    forall a: Pitch, b: Pitch, c: Pitch | ByName()(a, c)
      ensures ByName()(a, b) || ByName()(b, c)
    {
      LessNegativelyTransitive(a.name, b.name, c.name);
    }
  }

  /** `getAllPitches`: the pitches ordered by name, equal names in list order. */
  function GetAllPitches(pitches: seq<Pitch>): (r: seq<Pitch>)
    ensures multiset(r) == multiset(pitches)
    ensures forall i, j :: 0 <= i < j < |r| ==> !Less(r[j].name, r[i].name)
  {
    ByNameIsStrictWeakOrder();
    SortBySorted(pitches, ByName());
    SortBy(pitches, ByName())
  }

  /** Pitches with the same name keep the order they were stored in. */
  lemma GetAllPitchesIsStable(pitches: seq<Pitch>, e: Pitch)
    ensures Filter(GetAllPitches(pitches), TiedWith(ByName(), e))
         == Filter(pitches, TiedWith(ByName(), e))
  {
    ByNameIsStrictWeakOrder();
    SortByStable(pitches, ByName(), e);
  }

  // ---------------------------------------------------------------------------
  // Bookings

  /** `value || 'Unknown'`. */
  function OrUnknown(s: string): string
  {
    if s == "" then "Unknown" else s
  }

  /** A booking with the name and location of the first pitch of its id,
      `'Unknown'` when there is no such pitch or the field is empty. */
  function Enrich(b: Booking, pitches: seq<Pitch>): (r: EnrichedBooking)
    ensures r.booking == b
    ensures (forall k :: 0 <= k < |pitches| ==> pitches[k].id != b.pitchId) ==>
              r.pitchName == "Unknown" && r.pitchLocation == "Unknown"
    ensures forall k :: 0 <= k < |pitches| && pitches[k].id == b.pitchId
                        && (forall m :: 0 <= m < k ==> pitches[m].id != b.pitchId) ==>
              r.pitchName == OrUnknown(pitches[k].name) && r.pitchLocation == OrUnknown(pitches[k].location)
  {
    match FirstIndex(pitches, (p: Pitch) => p.id == b.pitchId)
    case None => EnrichedBooking(b, "Unknown", "Unknown")
    case Some(i) => EnrichedBooking(b, OrUnknown(pitches[i].name), OrUnknown(pitches[i].location))
  }

  /** `bookings.map(...)` adding the pitch details. */
  function EnrichAll(bookings: seq<Booking>, pitches: seq<Pitch>): (r: seq<EnrichedBooking>)
    ensures |r| == |bookings|
    ensures forall i :: 0 <= i < |r| ==> r[i] == Enrich(bookings[i], pitches)
    ensures forall i :: 0 <= i < |r| ==> r[i].booking == bookings[i]
    ensures forall i :: 0 <= i < |r| && (forall k :: 0 <= k < |pitches| ==> pitches[k].id != bookings[i].pitchId) ==>
              r[i].pitchName == "Unknown" && r[i].pitchLocation == "Unknown"
    ensures forall i, k :: 0 <= i < |r| && 0 <= k < |pitches| && pitches[k].id == bookings[i].pitchId
                           && (forall m :: 0 <= m < k ==> pitches[m].id != bookings[i].pitchId) ==>
              r[i].pitchName == OrUnknown(pitches[k].name) && r[i].pitchLocation == OrUnknown(pitches[k].location)
  {
    seq(|bookings|, i requires 0 <= i < |bookings| => Enrich(bookings[i], pitches))
  }

  /** The comparator of `getAllBookings` below zero: the later date first, and
      on one date the later start first. */
  function NewestFirst(): (EnrichedBooking, EnrichedBooking) -> bool
  {
    (a: EnrichedBooking, b: EnrichedBooking) =>
      LexLess(b.booking.bookingDate, b.booking.startTime, a.booking.bookingDate, a.booking.startTime)
  }

  lemma NewestFirstIsStrictWeakOrder()
    ensures StrictWeakOrder(NewestFirst())
  {
    forall a: EnrichedBooking, b: EnrichedBooking | NewestFirst()(a, b)
      ensures !NewestFirst()(b, a)
    {
      LexLessAsymmetric(b.booking.bookingDate, b.booking.startTime, a.booking.bookingDate, a.booking.startTime);
    }
    forall a: EnrichedBooking, b: EnrichedBooking, c: EnrichedBooking | NewestFirst()(a, c)
      ensures NewestFirst()(a, b) || NewestFirst()(b, c)
    {
      LexLessNegativelyTransitive(c.booking.bookingDate, c.booking.startTime,
                                  b.booking.bookingDate, b.booking.startTime,
                                  a.booking.bookingDate, a.booking.startTime);
    }
  }

  /** `getAllBookings`: every booking with its pitch details, newest date
      first and, on one date, latest start first. */
  function GetAllBookings(bookings: seq<Booking>, pitches: seq<Pitch>): (r: seq<EnrichedBooking>)
    ensures |r| == |bookings|
    ensures multiset(r) == multiset(EnrichAll(bookings, pitches))
    ensures forall i, j :: 0 <= i < j < |r| ==>
              !Less(r[i].booking.bookingDate, r[j].booking.bookingDate)
              && (r[i].booking.bookingDate == r[j].booking.bookingDate ==>
                    !Less(r[i].booking.startTime, r[j].booking.startTime))
  {
    var all := EnrichAll(bookings, pitches);
    NewestFirstIsStrictWeakOrder();
    SortBySorted(all, NewestFirst());
    assert |SortBy(all, NewestFirst())| == |all| by {
      assert |multiset(SortBy(all, NewestFirst()))| == |multiset(all)|;
    }
    SortBy(all, NewestFirst())
  }

  /** Bookings with the same date and start keep the order they were stored in. */
  lemma GetAllBookingsIsStable(bookings: seq<Booking>, pitches: seq<Pitch>, e: EnrichedBooking)
    ensures Filter(GetAllBookings(bookings, pitches), TiedWith(NewestFirst(), e))
         == Filter(EnrichAll(bookings, pitches), TiedWith(NewestFirst(), e))
  {
    NewestFirstIsStrictWeakOrder();
    SortByStable(EnrichAll(bookings, pitches), NewestFirst(), e);
  }

  /** `b.pitch_id === parseInt(pitchId) && b.booking_date === date`. */
  function OnPitchAndDate(pitchId: JsArg, date: string): Booking -> bool
  {
    (b: Booking) => Some(b.pitchId) == ParseIntArg(pitchId) && b.bookingDate == date
  }

  /** `a.start_time.localeCompare(b.start_time) < 0`. */
  function StartsEarlier(): (Booking, Booking) -> bool
  {
    (a: Booking, b: Booking) => Less(a.startTime, b.startTime)
  }

  lemma StartsEarlierIsStrictWeakOrder()
    ensures StrictWeakOrder(StartsEarlier())
  {
    forall a: Booking, b: Booking | StartsEarlier()(a, b)
      ensures !StartsEarlier()(b, a)
    {
      LessAsymmetric(a.startTime, b.startTime);
    }
    forall a: Booking, b: Booking, c: Booking | StartsEarlier()(a, c)
      ensures StartsEarlier()(a, b) || StartsEarlier()(b, c)
    {
      LessNegativelyTransitive(a.startTime, b.startTime, c.startTime);
    }
  }

  /** `getBookingsByPitchAndDate`: exactly the bookings of that pitch and
      date, earliest start first. */
  function GetBookingsByPitchAndDate(bookings: seq<Booking>, pitchId: JsArg, date: string): (r: seq<Booking>)
    ensures forall x :: x in r <==> x in bookings && Some(x.pitchId) == ParseIntArg(pitchId) && x.bookingDate == date
    ensures multiset(r) == multiset(Filter(bookings, OnPitchAndDate(pitchId, date)))
    ensures forall i, j :: 0 <= i < j < |r| ==> !Less(r[j].startTime, r[i].startTime)
  {
    var matching := Filter(bookings, OnPitchAndDate(pitchId, date));
    StartsEarlierIsStrictWeakOrder();
    SortBySorted(matching, StartsEarlier());
    SameMembers(SortBy(matching, StartsEarlier()), matching);
    FilterMembers(bookings, OnPitchAndDate(pitchId, date));
    SortBy(matching, StartsEarlier())
  }

  /** Bookings of that pitch and date with the same start keep the order
      they were stored in. */
  lemma GetBookingsByPitchAndDateIsStable(bookings: seq<Booking>, pitchId: JsArg, date: string, e: Booking)
    ensures Filter(GetBookingsByPitchAndDate(bookings, pitchId, date), TiedWith(StartsEarlier(), e))
         == Filter(Filter(bookings, OnPitchAndDate(pitchId, date)), TiedWith(StartsEarlier(), e))
  {
    StartsEarlierIsStrictWeakOrder();
    SortByStable(Filter(bookings, OnPitchAndDate(pitchId, date)), StartsEarlier(), e);
  }

  /** The test `checkAvailability` applies to each booking: same pitch, same
      date, and the three-branch overlap. */
  function ConflictTest(pitchId: JsArg, date: string, startTime: string, endTime: string): Booking -> bool
  {
    (b: Booking) => Some(b.pitchId) == ParseIntArg(pitchId) && b.bookingDate == date
                    && ThreeBranchOverlap(b.startTime, b.endTime, startTime, endTime)
  }

  /** `checkAvailability`: the bookings of that pitch and date that overlap
      the requested slot, in stored order. */
  function CheckAvailability(bookings: seq<Booking>, pitchId: JsArg, date: string,
                             startTime: string, endTime: string): (r: seq<Booking>)
    ensures IsSubsequence(r, bookings)
    ensures forall i :: 0 <= i < |r| ==>
              Some(r[i].pitchId) == ParseIntArg(pitchId) && r[i].bookingDate == date
              && ThreeBranchOverlap(r[i].startTime, r[i].endTime, startTime, endTime)
    ensures forall i :: 0 <= i < |bookings| && ConflictTest(pitchId, date, startTime, endTime)(bookings[i]) ==>
              bookings[i] in r
    ensures forall x {:trigger multiset(r)[x]} :: multiset(r)[x] ==
              if ConflictTest(pitchId, date, startTime, endTime)(x) then multiset(bookings)[x] else 0
  {
    var test := ConflictTest(pitchId, date, startTime, endTime);
    forall x
      ensures multiset(Filter(bookings, test))[x] == if test(x) then multiset(bookings)[x] else 0
    {
      FilterMultiplicity(bookings, test, x);
    }
    Filter(bookings, test)
  }

  /** With well-formed bookings and a well-formed request, the slot is free
      exactly when no booking of that pitch and date intersects it. */
  lemma FreeIffNoIntersection(bookings: seq<Booking>, pitchId: JsArg, date: string,
                              startTime: string, endTime: string)
    requires forall i :: 0 <= i < |bookings| ==> WellFormed(bookings[i])
    requires Less(startTime, endTime)
    ensures CheckAvailability(bookings, pitchId, date, startTime, endTime) == [] <==>
              forall i :: 0 <= i < |bookings| && Some(bookings[i].pitchId) == ParseIntArg(pitchId)
                          && bookings[i].bookingDate == date ==>
                !Intersects(bookings[i].startTime, bookings[i].endTime, startTime, endTime)
  {
    var r := CheckAvailability(bookings, pitchId, date, startTime, endTime);
    forall i | 0 <= i < |bookings|
      ensures ConflictTest(pitchId, date, startTime, endTime)(bookings[i]) <==>
                Some(bookings[i].pitchId) == ParseIntArg(pitchId) && bookings[i].bookingDate == date
                && Intersects(bookings[i].startTime, bookings[i].endTime, startTime, endTime)
    {
      ThreeBranchIsIntersection(bookings[i].startTime, bookings[i].endTime, startTime, endTime);
    }
    if r != [] {
      assert r[0] in bookings;
      var k :| 0 <= k < |bookings| && bookings[k] == r[0];
      assert ConflictTest(pitchId, date, startTime, endTime)(bookings[k]);
    }
  }

  /** A stored slot `s`-`m` leaves the following slot `m`-`e` free and is
      itself reported when asked for again. */
  lemma NextFreeSameTaken(b: Booking, pitchId: JsArg, s: string, m: string, e: string)
    requires Less(s, m) && Less(m, e)
    requires b.startTime == s && b.endTime == m
    requires ParseIntArg(pitchId) == Some(b.pitchId)
    ensures CheckAvailability([b], pitchId, b.bookingDate, m, e) == []
    ensures CheckAvailability([b], pitchId, b.bookingDate, s, m) == [b]
  {
    AdjacentSlotsDoNotConflict(s, m, e);
    SameSlotConflicts(s, m);
    FilterCons(b, [], ConflictTest(pitchId, b.bookingDate, m, e));
    FilterCons(b, [], ConflictTest(pitchId, b.bookingDate, s, m));
  }

  /** Stored 10:00-11:00 and requested 11:00-12:00 on that pitch do not
      conflict; the same slot requested again does. */
  lemma AdjacentFreeSameTaken(b: Booking, pitchId: JsArg)
    requires b.startTime == "10:00" && b.endTime == "11:00"
    requires ParseIntArg(pitchId) == Some(b.pitchId)
    ensures CheckAvailability([b], pitchId, b.bookingDate, "11:00", "12:00") == []
    ensures CheckAvailability([b], pitchId, b.bookingDate, "10:00", "11:00") == [b]
  {
    TenElevenTwelveOrdered();
    NextFreeSameTaken(b, pitchId, "10:00", "11:00", "12:00");
  }

  lemma TenElevenTwelveOrdered()
    ensures Less("10:00", "11:00") && Less("11:00", "12:00")
  {
    LessAtFirstDifference("10:00", "11:00", 1);
    LessAtFirstDifference("11:00", "12:00", 1);
  }

  /** `b.id === parseInt(id)`. */
  function HasBookingId(id: JsArg): Booking -> bool
  {
    (b: Booking) => Some(b.id) == ParseIntArg(id)
  }

  /** `findIndex` on the booking id, `None` for its `-1`. */
  function BookingIndex(bookings: seq<Booking>, id: JsArg): (r: Option<nat>)
    ensures r.Some? ==> r.value < |bookings| && Some(bookings[r.value].id) == ParseIntArg(id)
    ensures r.Some? ==> forall k :: 0 <= k < r.value ==> Some(bookings[k].id) != ParseIntArg(id)
    ensures r.None? <==> forall k :: 0 <= k < |bookings| ==> Some(bookings[k].id) != ParseIntArg(id)
  {
    FirstIndex(bookings, HasBookingId(id))
  }

  /** The bookings `deleteBooking` leaves: without the first booking of that
      id, or `None` (it returns `false`) when there is none. */
  function AfterDelete(bookings: seq<Booking>, id: JsArg): (r: Option<seq<Booking>>)
    ensures r.None? <==> forall k :: 0 <= k < |bookings| ==> Some(bookings[k].id) != ParseIntArg(id)
    ensures r.Some? ==> |r.value| == |bookings| - 1
  {
    match BookingIndex(bookings, id)
    case None => None
    case Some(i) => Some(RemoveAt(bookings, i))
  }

  /** Deleting removes exactly that one entry and keeps the others in order. */
  lemma AfterDeleteRemovesOne(bookings: seq<Booking>, id: JsArg)
    requires AfterDelete(bookings, id).Some?
    ensures var i := BookingIndex(bookings, id).value;
      var r := AfterDelete(bookings, id).value;
      && multiset(r) + multiset{bookings[i]} == multiset(bookings)
      && r == bookings[..i] + bookings[i + 1..]
  {
    var i := BookingIndex(bookings, id).value;
    assert AfterDelete(bookings, id).value == RemoveAt(bookings, i);
    RemoveAtMultiset(bookings, i);
  }

  /** Deleting keeps the schedule. */
  lemma DeleteKeepsSchedule(bookings: seq<Booking>, id: JsArg)
    requires Scheduled(bookings) && AfterDelete(bookings, id).Some?
    ensures Scheduled(AfterDelete(bookings, id).value)
  {
    var i := BookingIndex(bookings, id).value;
    var r := AfterDelete(bookings, id).value;
    forall a, b | 0 <= a < |r| && 0 <= b < |r| && a != b
      ensures !Clash(r[a], r[b])
    {
      var a' := if a < i then a else a + 1;
      var b' := if b < i then b else b + 1;
      assert r[a] == bookings[a'] && r[b] == bookings[b'];
    }
  }

  /** Deleting leaves the counter alone and keeps ids fresh; the deleted id
      no longer appears, and it is never handed out again. */
  lemma DeleteKeepsIdsFresh(bookings: seq<Booking>, id: JsArg, next: nat)
    requires IdsFresh(bookings, next) && AfterDelete(bookings, id).Some?
    ensures IdsFresh(AfterDelete(bookings, id).value, next)
    ensures forall k :: 0 <= k < |AfterDelete(bookings, id).value| ==>
              AfterDelete(bookings, id).value[k].id != bookings[BookingIndex(bookings, id).value].id
  {
    var i := BookingIndex(bookings, id).value;
    assert AfterDelete(bookings, id).value == RemoveAt(bookings, i);
    RemovedIdIsGone(bookings, i, next);
  }

  /** Taking booking `i` out keeps the ids fresh and leaves no booking with its id. */
  lemma RemovedIdIsGone(bookings: seq<Booking>, i: nat, next: nat)
    requires IdsFresh(bookings, next) && i < |bookings|
    ensures IdsFresh(RemoveAt(bookings, i), next)
    ensures forall k :: 0 <= k < |RemoveAt(bookings, i)| ==> RemoveAt(bookings, i)[k].id != bookings[i].id
  {
    var r := RemoveAt(bookings, i);
    forall a | 0 <= a < |r|
      ensures r[a].id < next && r[a].id != bookings[i].id
    {
      var a' := if a < i then a else a + 1;
      assert r[a] == bookings[a'];
    }
    forall a, b | 0 <= a < |r| && 0 <= b < |r| && a != b
      ensures r[a].id != r[b].id
    {
      var a' := if a < i then a else a + 1;
      var b' := if b < i then b else b + 1;
      assert r[a] == bookings[a'] && r[b] == bookings[b'];
    }
  }

  /** Taking booking `i` out of a schedule leaves its slot free. */
  lemma RemovedSlotIsFree(bookings: seq<Booking>, i: nat, pitchId: JsArg)
    requires Scheduled(bookings) && i < |bookings|
    requires ParseIntArg(pitchId) == Some(bookings[i].pitchId)
    ensures var b := bookings[i];
      CheckAvailability(RemoveAt(bookings, i), pitchId, b.bookingDate, b.startTime, b.endTime) == []
  {
    var b := bookings[i];
    var r := RemoveAt(bookings, i);
    forall a | 0 <= a < |r| && Some(r[a].pitchId) == ParseIntArg(pitchId) && r[a].bookingDate == b.bookingDate
      ensures !Intersects(r[a].startTime, r[a].endTime, b.startTime, b.endTime)
    {
      var a' := if a < i then a else a + 1;
      assert r[a] == bookings[a'] && a' != i;
      assert !Clash(bookings[a'], bookings[i]);
    }
    forall a | 0 <= a < |r|
      ensures WellFormed(r[a])
    {
      var a' := if a < i then a else a + 1;
      assert r[a] == bookings[a'];
    }
    FreeIffNoIntersection(r, pitchId, b.bookingDate, b.startTime, b.endTime);
  }

  /** In a schedule, cancelling a booking frees its slot: asking for that
      slot afterwards finds no conflict. */
  lemma CancelFreesSlot(bookings: seq<Booking>, id: JsArg, pitchId: JsArg)
    requires Scheduled(bookings) && AfterDelete(bookings, id).Some?
    requires ParseIntArg(pitchId) == Some(bookings[BookingIndex(bookings, id).value].pitchId)
    ensures var b := bookings[BookingIndex(bookings, id).value];
      CheckAvailability(AfterDelete(bookings, id).value, pitchId, b.bookingDate, b.startTime, b.endTime) == []
  {
    var i := BookingIndex(bookings, id).value;
    assert AfterDelete(bookings, id).value == RemoveAt(bookings, i);
    RemovedSlotIsFree(bookings, i, pitchId);
  }

  // ---------------------------------------------------------------------------
  // The store

  /** The loaded document, which `createPitch`, `createBooking` and
      `deleteBooking` change and write back. */
  class Store {
    var pitches: seq<Pitch>
    var bookings: seq<Booking>
    var nextPitchId: nat
    var nextBookingId: nat

    function Contents(): Document
      reads this
    {
      Document(pitches, bookings, nextPitchId, nextBookingId)
    }

    constructor Load(doc: Document)
      ensures Contents() == doc
    {
      pitches := doc.pitches;
      bookings := doc.bookings;
      nextPitchId := doc.nextPitchId;
      nextBookingId := doc.nextBookingId;
    }

    /** `createPitch`: the pitch gets the counter's id, is appended, and the
        counter rises by one. */
    method CreatePitch(data: PitchData) returns (p: Pitch)
      modifies this
      ensures p == data.WithId(old(nextPitchId))
      ensures pitches == old(pitches) + [p] && nextPitchId == old(nextPitchId) + 1
      ensures bookings == old(bookings) && nextBookingId == old(nextBookingId)
    {
      p := data.WithId(nextPitchId);
      nextPitchId := nextPitchId + 1;
      pitches := pitches + [p];
    }

    /** `createBooking`: the booking gets the counter's id and the timestamp,
        is appended, the counter rises by one, and it is returned with its
        pitch details. */
    method CreateBooking(draft: BookingDraft, createdAt: string) returns (r: EnrichedBooking)
      modifies this
      ensures bookings == old(bookings) + [draft.WithId(old(nextBookingId), createdAt)]
      ensures nextBookingId == old(nextBookingId) + 1
      ensures pitches == old(pitches) && nextPitchId == old(nextPitchId)
      ensures r == Enrich(draft.WithId(old(nextBookingId), createdAt), pitches)
    {
      var b := draft.WithId(nextBookingId, createdAt);
      nextBookingId := nextBookingId + 1;
      bookings := bookings + [b];
      r := Enrich(b, pitches);
    }

    /** `deleteBooking`: `false` and no change when no booking has that id;
        otherwise the first such booking is spliced out. */
    method DeleteBooking(id: JsArg) returns (deleted: bool)
      modifies this
      ensures deleted <==> AfterDelete(old(bookings), id).Some?
      ensures deleted ==> bookings == AfterDelete(old(bookings), id).value
      ensures !deleted ==> bookings == old(bookings)
      ensures pitches == old(pitches) && nextPitchId == old(nextPitchId)
      ensures nextBookingId == old(nextBookingId)
    {
      var index := BookingIndex(bookings, id);
      if index.None? {
        return false;
      }
      bookings := RemoveAt(bookings, index.value);
      return true;
    }

    /** The backend's seeding step: when there is no pitch, `createPitch` on
        each seed pitch in turn. */
    method SeedIfEmpty()
      modifies this
      ensures Contents() == Seeded(old(Contents()))
    {
      if |pitches| == 0 {
        var k := 0;
        while k < |SeedPitches|
          invariant 0 <= k <= |SeedPitches|
          invariant |pitches| == k
          invariant forall i :: 0 <= i < k ==> pitches[i] == SeedPitches[i].WithId(old(nextPitchId) + i)
          invariant nextPitchId == old(nextPitchId) + k
          invariant bookings == old(bookings) && nextBookingId == old(nextBookingId)
        {
          var p := CreatePitch(SeedPitches[k]);
          k := k + 1;
        }
        assert pitches == Numbered(SeedPitches, old(nextPitchId));
      }
    }
  }

  /** The backend store at start-up: `initDB`, then the seeding step; a file
      that does not parse stops the server (`None`). */
  method BackendStartup(file: StoredFile) returns (store: Option<Store>)
    ensures store.None? <==> file.Unparsable?
    ensures store.Some? ==> fresh(store.value) && store.value.Contents() == Seeded(BackendInitDB(file).value)
  {
    var doc := BackendInitDB(file);
    if doc.None? {
      return None;
    }
    var s := new Store.Load(doc.value);
    s.SeedIfEmpty();
    return Some(s);
  }

  /** The api store as each operation loads it through `initDB`. */
  method ApiOpen(file: StoredFile) returns (store: Store)
    ensures fresh(store) && store.Contents() == ApiInitDB(file)
  {
    store := new Store.Load(ApiInitDB(file));
  }
}
