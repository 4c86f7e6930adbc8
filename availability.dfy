/** The advisory availability query: POST /bookings/check-availability in
    both variants answers from the overlap query and changes nothing. */
module Availability {
  import opened Wrappers
  import opened Js
  import opened Entities
  import opened Schedule
  import opened Database
  import opened Http

  /** The fields read from the request body; `None` is a field that is absent. */
  datatype AvailabilityRequest = AvailabilityRequest(pitchId: JsArg, date: Option<string>,
                                                     startTime: Option<string>, endTime: Option<string>)

  /** No field missing or falsy. */
  predicate HasAllFields(q: AvailabilityRequest)
  {
    Truthy(q.pitchId) && Given(q.date) && Given(q.startTime) && Given(q.endTime)
  }

  /** `400` when a field is missing; otherwise `200` with the overlapping
      bookings and whether there are none. The times are not checked. */
  function Answer(bookings: seq<Booking>, q: AvailabilityRequest): Response
  {
    if !HasAllFields(q) then Response(400, Error("Missing required fields"))
    else
      var overlapping := CheckAvailability(bookings, q.pitchId, q.date.value, q.startTime.value, q.endTime.value);
      Response(200, Availability(|overlapping| == 0, overlapping))
  }

  /** `400` exactly when a field is missing, and then the store plays no part;
      otherwise the conflicts are the overlap query's result and `available`
      says that there are none. */
  lemma AnswerShape(bookings: seq<Booking>, other: seq<Booking>, q: AvailabilityRequest)
    ensures var r := Answer(bookings, q);
      && (r.status == 400 <==> !HasAllFields(q))
      && (!HasAllFields(q) ==> r == Answer(other, q) == Response(400, Error("Missing required fields")))
      && (HasAllFields(q) ==>
            && r.status == 200 && r.body.Availability?
            && r.body.conflictingBookings
               == CheckAvailability(bookings, q.pitchId, q.date.value, q.startTime.value, q.endTime.value)
            && (r.body.available <==> r.body.conflictingBookings == []))
  {
  }

  /** For well-formed bookings and a request that ends after it starts, the
      slot is reported available exactly when no booking of that pitch and
      date intersects it. */
  lemma AvailableIffFree(bookings: seq<Booking>, q: AvailabilityRequest)
    requires HasAllFields(q) && Less(q.startTime.value, q.endTime.value)
    requires forall i :: 0 <= i < |bookings| ==> WellFormed(bookings[i])
    ensures Answer(bookings, q).body.available <==>
              forall i :: 0 <= i < |bookings| && Some(bookings[i].pitchId) == ParseIntArg(q.pitchId)
                          && bookings[i].bookingDate == q.date.value ==>
                !Intersects(bookings[i].startTime, bookings[i].endTime, q.startTime.value, q.endTime.value)
  {
    FreeIffNoIntersection(bookings, q.pitchId, q.date.value, q.startTime.value, q.endTime.value);
  }

  /** A reversed range is not refused: 10:30-09:00 is answered with `200`,
      and a booking 10:00-11:00 that it does not intersect is reported as a
      conflict. */
  lemma ReversedRangeIsAnswered(b: Booking)
    requires b.startTime == "10:00" && b.endTime == "11:00"
    ensures var q := AvailabilityRequest(Num(b.pitchId), Some(b.bookingDate), Some("10:30"), Some("09:00"));
      var r := Answer([b], q);
      && (b.pitchId != 0 && b.bookingDate != "" ==> r.status == 200 && r.body.conflictingBookings == [b])
      && !Intersects(b.startTime, b.endTime, "10:30", "09:00")
  {
    ReversedRequestIsNotIntersection();
    var q := AvailabilityRequest(Num(b.pitchId), Some(b.bookingDate), Some("10:30"), Some("09:00"));
    Seqs.FilterCons(b, [], ConflictTest(q.pitchId, b.bookingDate, "10:30", "09:00"));
  }
}
