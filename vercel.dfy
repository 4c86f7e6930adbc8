/** The two serverless handlers of the api variant: method dispatch around
    the shared pipeline and query. */
module Vercel {
  import opened Wrappers
  import opened Entities
  import opened Schedule
  import opened Database
  import opened Http
  import opened Admission
  import opened Availability

  /** api/bookings.js on the document: OPTIONS, the listing, the POST
      pipeline, or `405` allowing GET and POST. */
  function Bookings(doc: Document, verb: string, req: BookingRequest, createdAt: string): Outcome
  {
    if verb == "OPTIONS" then Outcome(Response(200, Empty), doc)
    else if verb == "GET" then Outcome(Response(200, BookingList(GetAllBookings(doc.bookings, doc.pitches))), doc)
    else if verb == "POST" then Post(doc, req, createdAt)
    else Outcome(MethodNotAllowed(verb, ["GET", "POST"]), doc)
  }

  /** Only an accepted POST writes; GET answers the listing unchanged; any
      method but OPTIONS, GET and POST gets `405`; the schedule and fresh ids
      survive every request. */
  lemma BookingsEffect(doc: Document, verb: string, req: BookingRequest, createdAt: string)
    ensures var o := Bookings(doc, verb, req, createdAt);
      && (o.after != doc ==> verb == "POST" && o.response.status == 201)
      && (verb == "OPTIONS" ==> o.response == Response(200, Empty))
      && (verb == "GET" ==> o.response == Response(200, BookingList(GetAllBookings(doc.bookings, doc.pitches))))
      && (o.response.status == 405 <==> verb != "OPTIONS" && verb != "GET" && verb != "POST")
      && (o.response.status == 405 ==> o.response.body.NotAllowed? && o.response.body.allow == ["GET", "POST"])
      && (Scheduled(doc.bookings) ==> Scheduled(o.after.bookings))
      && (IdsFresh(doc.bookings, doc.nextBookingId) ==> IdsFresh(o.after.bookings, o.after.nextBookingId))
  {
    if verb == "POST" {
      PostEffect(doc, req, createdAt);
      GuardOrder(doc.pitches, doc.bookings, req);
      if Scheduled(doc.bookings) {
        PostKeepsSchedule(doc, req, createdAt);
      }
      if IdsFresh(doc.bookings, doc.nextBookingId) {
        PostKeepsIdsFresh(doc, req, createdAt);
      }
    }
  }

  /** The handler on the store. */
  method ServeBookings(store: Store, verb: string, req: BookingRequest, createdAt: string)
    returns (response: Response)
    modifies store
    ensures Outcome(response, store.Contents()) == Bookings(old(store.Contents()), verb, req, createdAt)
  {
    if verb == "OPTIONS" {
      response := Response(200, Empty);
    } else if verb == "GET" {
      response := Response(200, BookingList(GetAllBookings(store.bookings, store.pitches)));
    } else if verb == "POST" {
      response := PostBooking(store, req, createdAt);
    } else {
      response := MethodNotAllowed(verb, ["GET", "POST"]);
    }
  }

  /** api/bookings/check-availability.js: OPTIONS, the query, or `405`
      allowing POST. It reads the bookings and writes nothing. */
  function CheckAvailabilityHandler(bookings: seq<Booking>, verb: string, q: AvailabilityRequest): (r: Response)
    ensures verb == "OPTIONS" ==> r == Response(200, Empty)
    ensures r.status == 405 <==> verb != "OPTIONS" && verb != "POST"
    ensures r.status == 405 ==> r.body.NotAllowed? && r.body.allow == ["POST"]
    ensures verb == "POST" ==> r == Answer(bookings, q)
  {
    if verb == "OPTIONS" then Response(200, Empty)
    else if verb == "POST" then Answer(bookings, q)
    else MethodNotAllowed(verb, ["POST"])
  }
}
