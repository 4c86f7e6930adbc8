/** The routes of backend/server.js beyond the POST /bookings pipeline and
    the availability query: a pitch by id, and deleting a booking. */
module ExpressServer {
  import opened Wrappers
  import opened Js
  import opened Entities
  import opened Schedule
  import opened Database
  import opened Http

  /** GET /pitches/:id: the pitch, or `404`. */
  function PitchByIdRoute(pitches: seq<Pitch>, id: string): (r: Response)
    ensures r.status == 200 <==> exists k :: 0 <= k < |pitches| && Some(pitches[k].id) == ParseInt(id)
    ensures r.status == 200 ==> r.body.PitchFound? && r.body.pitch in pitches
                                && Some(r.body.pitch.id) == ParseInt(id)
    ensures r.status == 200 ==> Some(r.body.pitch) == GetPitchById(pitches, Text(id))
    ensures forall k :: 0 <= k < |pitches| && Some(pitches[k].id) == ParseInt(id)
                        && (forall m :: 0 <= m < k ==> Some(pitches[m].id) != ParseInt(id)) ==>
              r == Response(200, PitchFound(pitches[k]))
    ensures r.status != 200 ==> r == Response(404, Error("Pitch not found"))
  {
    match GetPitchById(pitches, Text(id))
    case None => Response(404, Error("Pitch not found"))
    case Some(pitch) => Response(200, PitchFound(pitch))
  }

  /** DELETE /bookings/:id on the document: `404` and no change when no
      booking has that id, otherwise the booking is gone and the answer is a
      message. */
  function Delete(doc: Document, id: string): Outcome
  {
    match AfterDelete(doc.bookings, Text(id))
    case None => Outcome(Response(404, Error("Booking not found")), doc)
    case Some(rest) => Outcome(Response(200, Message("Booking deleted successfully")), doc.(bookings := rest))
  }

  /** `404` exactly when no booking has the id; deleting never touches the
      pitches or the counters, and keeps the schedule and fresh ids. */
  lemma DeleteEffect(doc: Document, id: string)
    ensures var o := Delete(doc, id);
      && (o.response.status == 404 <==>
            forall k :: 0 <= k < |doc.bookings| ==> Some(doc.bookings[k].id) != ParseInt(id))
      && (o.response.status == 404 ==> o.after == doc)
      && o.after.pitches == doc.pitches && o.after.nextPitchId == doc.nextPitchId
      && o.after.nextBookingId == doc.nextBookingId
      && (Scheduled(doc.bookings) ==> Scheduled(o.after.bookings))
      && (IdsFresh(doc.bookings, doc.nextBookingId) ==> IdsFresh(o.after.bookings, o.after.nextBookingId))
  {
    if AfterDelete(doc.bookings, Text(id)).Some? {
      if Scheduled(doc.bookings) {
        DeleteKeepsSchedule(doc.bookings, Text(id));
      }
      if IdsFresh(doc.bookings, doc.nextBookingId) {
        DeleteKeepsIdsFresh(doc.bookings, Text(id), doc.nextBookingId);
      }
    }
  }

  /** The route handler: `deleteBooking`, then the response for its result. */
  method DeleteBookingRoute(store: Store, id: string) returns (response: Response)
    modifies store
    ensures Outcome(response, store.Contents()) == Delete(old(store.Contents()), id)
  {
    var deleted := store.DeleteBooking(Text(id));
    if !deleted {
      return Response(404, Error("Booking not found"));
    }
    return Response(200, Message("Booking deleted successfully"));
  }
}
