/** What a handler sends back: a status code and a body. */
module Http {
  import opened Entities

  datatype Body =
    | Empty                                          // `res.end()`
    | Error(error: string)                           // `{ error }`
    | Message(message: string)                       // `{ message }`
    | PitchFound(pitch: Pitch)
    | BookingList(bookings: seq<EnrichedBooking>)
    | Created(booking: EnrichedBooking)
    | Availability(available: bool, conflictingBookings: seq<Booking>)
    | NotAllowed(allow: seq<string>, text: string)   // `Allow` header and plain text

  datatype Response = Response(status: int, body: Body)

  /** The response and the store document after a request. */
  datatype Outcome = Outcome(response: Response, after: Document)

  /** `405` with the allowed methods and the text `Method <m> Not Allowed`. */
  function MethodNotAllowed(verb: string, allow: seq<string>): Response
  {
    Response(405, NotAllowed(allow, "Method " + verb + " Not Allowed"))
  }
}
